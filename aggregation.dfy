/** The per-event half of internal/app/cloudwatchlogs.go: decoding an event, the rule
    check, the container ignore lists and the per-stream buckets (`streamEvents`).
    The Go map holds pointers to buckets that nothing else aliases, so a bucket is a
    value here and every update replaces the map entry. */
module Aggregation {
  import opened Wrappers
  import opened Matchers

  datatype ContainerInfo = ContainerInfo(podName: string, containerImage: string, containerName: string)

  /** The zero containerInfo a new bucket starts with. */
  const NoContainer: ContainerInfo := ContainerInfo("", "", "")

  /** logEvent: timestamp in epoch milliseconds and the log line. */
  datatype LogEvent = LogEvent(timestamp: int, message: string)

  datatype StreamEvents = StreamEvents(
    streamName: string,
    firstContainerInfo: ContainerInfo,
    events: seq<LogEvent>,
    hasIgnoredContainer: bool)

  type StreamGroups = map<string, StreamEvents>

  /** The fluentd envelope carried in an event's message. */
  datatype KubernetesInfos = KubernetesInfos(podName: string, containerImage: string, containerName: string, namespaceName: string)

  datatype FluentDockerLog = FluentDockerLog(log: string, kubernetes: KubernetesInfos)

  /** types.FilteredLogEvent, with the three fields the core reads. */
  datatype FilteredLogEvent = FilteredLogEvent(timestamp: int, message: string, logStreamName: string)

  /** What processLogEvent consults besides the event: the regex engine, the loaded
      rules, the two ignore lists of the configuration and `json.Unmarshal` of the
      envelope (None when the message is not valid JSON). */
  datatype Env = Env(
    re: RegexEngine,
    rules: seq<string>,
    imagesToIgnore: seq<string>,
    containerNameToIgnore: seq<string>,
    decode: string -> Option<FluentDockerLog>)

  /** The ignore lists are compiled with MustCompile: they must all compile. */
  predicate ValidEnv(env: Env) {
    AllCompile(env.re, env.imagesToIgnore) && AllCompile(env.re, env.containerNameToIgnore)
  }

  function NewStream(streamName: string): StreamEvents {
    StreamEvents(streamName, NoContainer, [], false)
  }

  function GetOrCreateStream(groups: StreamGroups, streamName: string): (r: StreamGroups)
    ensures streamName in r
    ensures r.Keys == groups.Keys + {streamName}
    ensures streamName in groups ==> r == groups
    ensures streamName !in groups ==> r == groups[streamName := NewStream(streamName)]
  {
    if streamName in groups then groups else groups[streamName := NewStream(streamName)]
  }

  function InfoOf(l: FluentDockerLog): ContainerInfo {
    ContainerInfo(l.kubernetes.podName, l.kubernetes.containerImage, l.kubernetes.containerName)
  }

  /** addEventToStream: the header identity is replaced as long as the recorded image is
      empty; the event is appended. */
  function AddEventToStream(l: FluentDockerLog, s: StreamEvents, timestamp: int): StreamEvents {
    s.(firstContainerInfo := if s.firstContainerInfo.containerImage == "" then InfoOf(l) else s.firstContainerInfo,
       events := s.events + [LogEvent(timestamp, l.log)])
  }

  predicate ContainerIgnored(env: Env, l: FluentDockerLog)
    requires ValidEnv(env)
  {
    IsImageIgnored(env.re, env.imagesToIgnore, l.kubernetes.containerImage) ||
    IsContainerIgnored(env.re, env.containerNameToIgnore, l.kubernetes.containerName)
  }

  /** processUnmatchedLogLine: an ignored image or container poisons the bucket and the
      event is dropped; the flag is not consulted, so a poisoned bucket still grows. */
  function ProcessUnmatchedLogLine(env: Env, l: FluentDockerLog, s: StreamEvents, timestamp: int): StreamEvents
    requires ValidEnv(env)
  {
    if ContainerIgnored(env, l) then s.(hasIgnoredContainer := true) else AddEventToStream(l, s, timestamp)
  }

  /** processLogEvent: a malformed message is dropped before any bucket exists; a
      well-formed one gets its bucket before the rule check. */
  function ProcessLogEvent(env: Env, groups: StreamGroups, e: FilteredLogEvent): (r: StreamGroups)
    requires ValidEnv(env)
    ensures forall k :: k != e.logStreamName ==> (k in r <==> k in groups)
    ensures forall k :: k != e.logStreamName && k in groups ==> r[k] == groups[k]
  {
    match env.decode(e.message)
    case None => groups
    case Some(l) =>
      var name := e.logStreamName;
      var g := GetOrCreateStream(groups, name);
      if IsLineMatchWithOneRule(env.re, l.log, env.rules) then g
      else g[name := ProcessUnmatchedLogLine(env, l, g[name], e.timestamp)]
  }

  /** The buckets after processing `evs` in order, starting from `groups`. */
  function ObserveAll(env: Env, groups: StreamGroups, evs: seq<FilteredLogEvent>): StreamGroups
    requires ValidEnv(env)
  {
    if evs == [] then groups
    else ProcessLogEvent(env, ObserveAll(env, groups, evs[..|evs| - 1]), evs[|evs| - 1])
  }

  lemma {:induction false} ObserveAllAppend(env: Env, groups: StreamGroups, a: seq<FilteredLogEvent>, b: seq<FilteredLogEvent>)
    requires ValidEnv(env)
    ensures ObserveAll(env, groups, a + b) == ObserveAll(env, ObserveAll(env, groups, a), b)
    decreases |b|
  {
    if b == [] {
      assert a + b == a;
    } else {
      var n := |b| - 1;
      assert (a + b)[..|a + b| - 1] == a + b[..n];
      assert (a + b)[|a + b| - 1] == b[n];
      ObserveAllAppend(env, groups, a, b[..n]);
    }
  }

  // ---------------------------------------------------------------------------
  // Reference reading: what a bucket holds, stated over the whole input at once.

  /** How processLogEvent treats one event. */
  datatype Verdict = Malformed | RuleMatched | FromIgnoredContainer | Kept(l: FluentDockerLog)

  function Classify(env: Env, e: FilteredLogEvent): Verdict
    requires ValidEnv(env)
  {
    match env.decode(e.message)
    case None => Malformed
    case Some(l) =>
      if IsLineMatchWithOneRule(env.re, l.log, env.rules) then RuleMatched
      else if ContainerIgnored(env, l) then FromIgnoredContainer
      else Kept(l)
  }

  /** The events of stream k that are appended to its bucket, in arrival order. */
  function Accepted(env: Env, evs: seq<FilteredLogEvent>, k: string): seq<LogEvent>
    requires ValidEnv(env)
  {
    if evs == [] then []
    else
      var e := evs[|evs| - 1];
      var v := Classify(env, e);
      Accepted(env, evs[..|evs| - 1], k) + (if e.logStreamName == k && v.Kept? then [LogEvent(e.timestamp, v.l.log)] else [])
  }

  /** The container identities of those same events. */
  function AcceptedInfos(env: Env, evs: seq<FilteredLogEvent>, k: string): seq<ContainerInfo>
    requires ValidEnv(env)
  {
    if evs == [] then []
    else
      var e := evs[|evs| - 1];
      var v := Classify(env, e);
      AcceptedInfos(env, evs[..|evs| - 1], k) + (if e.logStreamName == k && v.Kept? then [InfoOf(v.l)] else [])
  }

  /** Some well-formed event of stream k reached processLogEvent. */
  predicate Seen(env: Env, evs: seq<FilteredLogEvent>, k: string)
    requires ValidEnv(env)
  {
    exists i :: 0 <= i < |evs| && evs[i].logStreamName == k && !Classify(env, evs[i]).Malformed?
  }

  /** Some event of stream k that no rule matched came from an ignored image or container. */
  predicate Poisoned(env: Env, evs: seq<FilteredLogEvent>, k: string)
    requires ValidEnv(env)
  {
    exists i :: 0 <= i < |evs| && evs[i].logStreamName == k && Classify(env, evs[i]).FromIgnoredContainer?
  }

  /** Index of the first identity with a non-empty image, |infos| when there is none. */
  function FirstImageIndex(infos: seq<ContainerInfo>): (i: nat)
    ensures i <= |infos|
    ensures i < |infos| ==> infos[i].containerImage != ""
    ensures forall j :: 0 <= j < i ==> infos[j].containerImage == ""
  {
    if infos == [] then 0
    else if infos[0].containerImage != "" then 0
    else 1 + FirstImageIndex(infos[1..])
  }

  /** The header identity `firstContainerInfo` ends up with (cloudwatchlogs.go:50,
      225-238): the first appended event with a non-empty image, else the last
      appended event, else the zero identity. */
  function HeaderOf(infos: seq<ContainerInfo>): ContainerInfo {
    var i := FirstImageIndex(infos);
    if i < |infos| then infos[i]
    else if infos == [] then NoContainer
    else infos[|infos| - 1]
  }

  lemma HeaderOfEmptyImage(infos: seq<ContainerInfo>)
    ensures HeaderOf(infos).containerImage == "" <==> FirstImageIndex(infos) == |infos|
  {
    var i := FirstImageIndex(infos);
    if i == |infos| && infos != [] {
      assert infos[|infos| - 1].containerImage == "";
    }
  }

  lemma {:induction false} FirstImageIndexAppend(infos: seq<ContainerInfo>, x: ContainerInfo)
    ensures FirstImageIndex(infos + [x]) ==
              if FirstImageIndex(infos) < |infos| then FirstImageIndex(infos)
              else if x.containerImage != "" then |infos| else |infos| + 1
  {
    if infos != [] {
      assert (infos + [x])[1..] == infos[1..] + [x];
      FirstImageIndexAppend(infos[1..], x);
    }
  }

  /** Appending an identity changes the header exactly as addEventToStream does. */
  lemma HeaderOfAppend(infos: seq<ContainerInfo>, x: ContainerInfo)
    ensures HeaderOf(infos + [x]) == if HeaderOf(infos).containerImage == "" then x else HeaderOf(infos)
  {
    FirstImageIndexAppend(infos, x);
    HeaderOfEmptyImage(infos);
    var i := FirstImageIndex(infos);
    if i < |infos| {
      assert (infos + [x])[i] == infos[i];
    } else {
      assert (infos + [x])[|infos|] == x;
    }
  }

  /** The bucket of stream k after the whole input, read off the input directly: its
      appended events (those after the stream was poisoned included), their header
      identity and the poisoned flag (cloudwatchlogs.go:208-238). */
  function ReferenceBucket(env: Env, evs: seq<FilteredLogEvent>, k: string): StreamEvents
    requires ValidEnv(env)
  {
    StreamEvents(k, HeaderOf(AcceptedInfos(env, evs, k)), Accepted(env, evs, k), Poisoned(env, evs, k))
  }

  /** The buckets built event by event are the reference buckets: a bucket exists for
      every stream with a well-formed event (even if rules dropped all its lines), it
      holds every event of that stream that passed both filters, even those after the
      stream was poisoned, it is poisoned iff one of its rule-surviving events came from
      an ignored container, and its header is the identity HeaderOf describes. */
  lemma {:induction false} ObserveAllAt(env: Env, evs: seq<FilteredLogEvent>, k: string)
    requires ValidEnv(env)
    ensures k in ObserveAll(env, map[], evs) <==> Seen(env, evs, k)
    ensures k in ObserveAll(env, map[], evs) ==> ObserveAll(env, map[], evs)[k] == ReferenceBucket(env, evs, k)
  {
    if evs != [] {
      var n := |evs| - 1;
      ObserveAllAt(env, evs[..n], k);
      assert evs[..n] + [evs[n]] == evs;
      BucketStep(env, ObserveAll(env, map[], evs[..n]), evs[..n], evs[n], k);
    }
  }

  /** Bucket k agrees with the reference reading of p. */
  predicate BucketMatches(env: Env, groups: StreamGroups, p: seq<FilteredLogEvent>, k: string)
    requires ValidEnv(env)
  {
    (k in groups <==> Seen(env, p, k)) && (k in groups ==> groups[k] == ReferenceBucket(env, p, k))
  }

  lemma AcceptedStep(env: Env, p: seq<FilteredLogEvent>, e: FilteredLogEvent, k: string)
    requires ValidEnv(env)
    ensures Accepted(env, p + [e], k) ==
              Accepted(env, p, k) + (if e.logStreamName == k && Classify(env, e).Kept? then [LogEvent(e.timestamp, Classify(env, e).l.log)] else [])
    ensures AcceptedInfos(env, p + [e], k) ==
              AcceptedInfos(env, p, k) + (if e.logStreamName == k && Classify(env, e).Kept? then [InfoOf(Classify(env, e).l)] else [])
  {
    assert (p + [e])[..|p|] == p;
  }

  /** One processLogEvent call keeps bucket k in agreement with the reference reading. */
  lemma BucketStep(env: Env, before: StreamGroups, p: seq<FilteredLogEvent>, e: FilteredLogEvent, k: string)
    requires ValidEnv(env)
    requires BucketMatches(env, before, p, k)
    ensures BucketMatches(env, ProcessLogEvent(env, before, e), p + [e], k)
  {
    SeenStep(env, p, e, k);
    PoisonedStep(env, p, e, k);
    AcceptedStep(env, p, e, k);
    if e.logStreamName == k && env.decode(e.message).Some? {
      var l := env.decode(e.message).value;
      if k !in before { UnseenIsEmpty(env, p, k); }
      var g := GetOrCreateStream(before, k);
      assert g[k] == ReferenceBucket(env, p, k);
      var r := ProcessLogEvent(env, before, e);
      if IsLineMatchWithOneRule(env.re, l.log, env.rules) {
        assert Classify(env, e) == RuleMatched;
        assert r == g;
        assert Accepted(env, p + [e], k) == Accepted(env, p, k);
        assert AcceptedInfos(env, p + [e], k) == AcceptedInfos(env, p, k);
        assert Poisoned(env, p + [e], k) == Poisoned(env, p, k);
        assert r[k] == ReferenceBucket(env, p + [e], k);
      } else if ContainerIgnored(env, l) {
        assert Classify(env, e) == FromIgnoredContainer;
        assert r[k] == g[k].(hasIgnoredContainer := true);
        assert Accepted(env, p + [e], k) == Accepted(env, p, k);
        assert AcceptedInfos(env, p + [e], k) == AcceptedInfos(env, p, k);
        assert Poisoned(env, p + [e], k);
        assert r[k] == ReferenceBucket(env, p + [e], k);
      } else {
        assert Classify(env, e) == Kept(l);
        assert r[k] == AddEventToStream(l, g[k], e.timestamp);
        HeaderOfAppend(AcceptedInfos(env, p, k), InfoOf(l));
      }
    } else {
      var r := ProcessLogEvent(env, before, e);
      assert k in r <==> k in before;
      assert k in before ==> r[k] == before[k];
      assert e.logStreamName == k ==> Classify(env, e) == Malformed;
      assert Accepted(env, p + [e], k) == Accepted(env, p, k);
      assert AcceptedInfos(env, p + [e], k) == AcceptedInfos(env, p, k);
    }
  }

  /** A stream with no well-formed event has nothing accepted. */
  lemma {:induction false} UnseenIsEmpty(env: Env, evs: seq<FilteredLogEvent>, k: string)
    requires ValidEnv(env)
    requires !Seen(env, evs, k)
    ensures Accepted(env, evs, k) == [] && AcceptedInfos(env, evs, k) == []
  {
    if evs != [] {
      var n := |evs| - 1;
      SeenStep(env, evs[..n], evs[n], k);
      assert evs[..n] + [evs[n]] == evs;
      UnseenIsEmpty(env, evs[..n], k);
    }
  }

  lemma SeenStep(env: Env, p: seq<FilteredLogEvent>, e: FilteredLogEvent, k: string)
    requires ValidEnv(env)
    ensures Seen(env, p + [e], k) <==> Seen(env, p, k) || (e.logStreamName == k && !Classify(env, e).Malformed?)
  {
    var evs := p + [e];
    if Seen(env, p, k) {
      var i :| 0 <= i < |p| && p[i].logStreamName == k && !Classify(env, p[i]).Malformed?;
      assert evs[i] == p[i];
    }
    if e.logStreamName == k && !Classify(env, e).Malformed? {
      assert evs[|p|] == e;
    }
    if Seen(env, evs, k) {
      var i :| 0 <= i < |evs| && evs[i].logStreamName == k && !Classify(env, evs[i]).Malformed?;
      if i < |p| { assert p[i] == evs[i]; }
    }
  }

  lemma PoisonedStep(env: Env, p: seq<FilteredLogEvent>, e: FilteredLogEvent, k: string)
    requires ValidEnv(env)
    ensures Poisoned(env, p + [e], k) <==> Poisoned(env, p, k) || (e.logStreamName == k && Classify(env, e).FromIgnoredContainer?)
  {
    var evs := p + [e];
    if Poisoned(env, p, k) {
      var i :| 0 <= i < |p| && p[i].logStreamName == k && Classify(env, p[i]).FromIgnoredContainer?;
      assert evs[i] == p[i];
    }
    if e.logStreamName == k && Classify(env, e).FromIgnoredContainer? {
      assert evs[|p|] == e;
    }
    if Poisoned(env, evs, k) {
      var i :| 0 <= i < |evs| && evs[i].logStreamName == k && Classify(env, evs[i]).FromIgnoredContainer?;
      if i < |p| { assert p[i] == evs[i]; }
    }
  }

  /** No line that some compiling rule matches is ever appended to a bucket. */
  lemma {:induction false} AcceptedPassRules(env: Env, evs: seq<FilteredLogEvent>, k: string)
    requires ValidEnv(env)
    ensures forall j :: 0 <= j < |Accepted(env, evs, k)| ==>
              !IsLineMatchWithOneRule(env.re, Accepted(env, evs, k)[j].message, env.rules)
  {
    if evs != [] {
      AcceptedPassRules(env, evs[..|evs| - 1], k);
    }
  }

  /** Every appended event comes from an event of that stream whose decoded line is the
      message and whose timestamp is kept, in input order. */
  lemma {:induction false} AcceptedComeFromInput(env: Env, evs: seq<FilteredLogEvent>, k: string)
    requires ValidEnv(env)
    ensures |Accepted(env, evs, k)| <= |evs|
    ensures forall j :: 0 <= j < |Accepted(env, evs, k)| ==>
              exists i :: 0 <= i < |evs| && evs[i].logStreamName == k && Classify(env, evs[i]).Kept? &&
                          Accepted(env, evs, k)[j] == LogEvent(evs[i].timestamp, Classify(env, evs[i]).l.log)
  {
    if evs != [] {
      var n := |evs| - 1;
      var p := evs[..n];
      AcceptedComeFromInput(env, p, k);
      var a := Accepted(env, evs, k);
      forall j | 0 <= j < |a|
        ensures exists i :: 0 <= i < |evs| && evs[i].logStreamName == k && Classify(env, evs[i]).Kept? &&
                            a[j] == LogEvent(evs[i].timestamp, Classify(env, evs[i]).l.log)
      {
        if j < |Accepted(env, p, k)| {
          var i :| 0 <= i < |p| && p[i].logStreamName == k && Classify(env, p[i]).Kept? &&
                   Accepted(env, p, k)[j] == LogEvent(p[i].timestamp, Classify(env, p[i]).l.log);
          assert evs[i] == p[i];
        } else {
          assert evs[n].logStreamName == k && Classify(env, evs[n]).Kept?;
        }
      }
    }
  }
}
