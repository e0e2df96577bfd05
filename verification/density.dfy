/** The sequential bookkeeping of the Windows pod-density batch test: building the
    pod specifications, recording creation times, recording the first time each pod
    is observed running, and turning the two timestamp maps into per-pod startup
    latencies and a batch span.

    Timestamps are nanoseconds of the monotonic clock reading that every
    metav1.Now() carries, which is what Sub, After and Before compare. Every
    reading of the clock and every generated UUID is an input. Informer callbacks run one at a time under the mutex, so they are
    modelled as a sequence of events. */
module WindowsDensity {

  /** A point in time (metav1.Time), in nanoseconds. */
  type Time = int
  /** A time.Duration: a signed 64-bit count of nanoseconds. */
  type Duration = int

  const MinDuration: Duration := -0x8000_0000_0000_0000
  const MaxDuration: Duration := 0x7FFF_FFFF_FFFF_FFFF

  /** time.Time.Sub: `t - u`, saturated to the range of a Duration. */
  function Sub(t: Time, u: Time): (d: Duration)
    ensures MinDuration <= d <= MaxDuration
    ensures MinDuration <= t - u <= MaxDuration ==> d == t - u
    ensures t - u > MaxDuration ==> d == MaxDuration
    ensures t - u < MinDuration ==> d == MinDuration
    ensures d < 0 <==> t < u
  {
    if t - u > MaxDuration then MaxDuration
    else if t - u < MinDuration then MinDuration
    else t - u
  }

  /** A later end and an earlier start never give a shorter duration. */
  lemma SubMonotone(t: Time, u: Time, t': Time, u': Time)
    requires t <= t' && u' <= u
    ensures Sub(t, u) <= Sub(t', u')
  {
  }

  // ---------------------------------------------------------------------------
  // Collections

  predicate Distinct(s: seq<string>) {
    forall i, j :: 0 <= i < j < |s| ==> s[i] != s[j]
  }

  /** A sequence without repetitions has as many members as elements. */
  lemma {:induction false} DistinctCard(s: seq<string>)
    requires Distinct(s)
    ensures |set x | x in s| == |s|
  {
    if s != [] {
      DistinctCard(s[1..]);
      assert (set x | x in s) == {s[0]} + (set x | x in s[1..]);
      assert s[0] !in (set x | x in s[1..]);
    }
  }

  /** A subset is no larger than its superset. */
  lemma {:induction false} SubsetCard(a: set<string>, b: set<string>)
    requires a <= b
    ensures |a| <= |b|
    decreases a
  {
    if a != {} {
      var x :| x in a;
      SubsetCard(a - {x}, b - {x});
    }
  }

  /** A subset as large as its superset is the whole superset. */
  lemma SubsetFull(a: set<string>, b: set<string>)
    requires a <= b && |a| >= |b|
    ensures a == b
  {
    if a != b {
      var x :| x in b && x !in a;
      SubsetCard(a, b - {x});
    }
  }

  lemma PrefixInjective(p: string, a: string, b: string)
    requires p + a == p + b
    ensures a == b
  {
    assert a == (p + a)[|p|..];
    assert b == (p + b)[|p|..];
  }

  // ---------------------------------------------------------------------------
  // Pods

  datatype PodPhase = PhaseUnset | Pending | Running | Succeeded | Failed | Unknown

  datatype VolumeMount = VolumeMount(mountPath: string, name: string)

  datatype Container = Container(image: string, name: string, volumeMounts: seq<VolumeMount>)

  datatype VolumeSource = EmptyDir

  datatype Volume = Volume(name: string, source: VolumeSource)

  /** The fields of a v1.Pod that the test writes or reads. */
  datatype Pod = Pod(
    name: string,
    labels: map<string, string>,
    containers: seq<Container>,
    nodeSelector: map<string, string>,
    volumes: seq<Volume>,
    phase: PodPhase)

  const PodType: string := "density_test_pod"
  const PodNamePrefix: string := "test-"
  const VolumeNameSuffix: string := "-volume"
  const VolumeMountPath: string := "/test-volume-mnt"
  const OsSelectorKey: string := "beta.kubernetes.io/os"
  const OsSelectorValue: string := "windows"

  predicate DistinctNames(pods: seq<Pod>) {
    forall i, j :: 0 <= i < j < |pods| ==> pods[i].name != pods[j].name
  }

  function PodNames(pods: seq<Pod>): seq<string> {
    seq(|pods|, k requires 0 <= k < |pods| => pods[k].name)
  }

  /** What a pod built by the test looks like: labelled with the run tag and its own
      name, pinned to Windows nodes, one container of the given image, and, when
      asked for, one empty-dir volume mounted into that container. */
  predicate IsTestPod(p: Pod, podName: string, volume: bool, imageName: string, podType: string) {
    && p.name == podName
    && p.labels == map["type" := podType, "name" := podName]
    && p.nodeSelector == map[OsSelectorKey := OsSelectorValue]
    && |p.containers| == 1
    && p.containers[0].image == imageName
    && p.containers[0].name == podName
    && (if volume then
          && p.volumes == [Volume(podName + VolumeNameSuffix, EmptyDir)]
          && p.containers[0].volumeMounts == [VolumeMount(VolumeMountPath, podName + VolumeNameSuffix)]
        else
          && p.volumes == []
          && p.containers[0].volumeMounts == [])
    && p.phase == PhaseUnset
  }

  /** newTestPods: `numPods` pod specifications (none for a negative count), the
      i-th named after the i-th generated UUID. */
  method NewTestPods(numPods: int, volume: bool, imageName: string, podType: string, uuids: seq<string>)
    returns (pods: seq<Pod>)
    requires numPods <= |uuids|
    ensures |pods| == if numPods < 0 then 0 else numPods
    ensures forall i :: 0 <= i < |pods| ==> pods[i].name == PodNamePrefix + uuids[i]
    ensures forall i :: 0 <= i < |pods| ==>
      IsTestPod(pods[i], PodNamePrefix + uuids[i], volume, imageName, podType)
    ensures Distinct(uuids) ==> DistinctNames(pods)
  {
    pods := [];
    var i := 0;
    while i < numPods
      invariant 0 <= i <= if numPods < 0 then 0 else numPods
      invariant |pods| == i
      invariant forall k :: 0 <= k < i ==>
        IsTestPod(pods[k], PodNamePrefix + uuids[k], volume, imageName, podType)
    {
      var podName := PodNamePrefix + uuids[i];
      var labels := map["type" := podType, "name" := podName];
      if volume {
        pods := pods + [Pod(
          podName, labels,
          [Container(imageName, podName, [VolumeMount(VolumeMountPath, podName + VolumeNameSuffix)])],
          map[OsSelectorKey := OsSelectorValue],
          [Volume(podName + VolumeNameSuffix, EmptyDir)],
          PhaseUnset)];
      } else {
        pods := pods + [Pod(
          podName, labels,
          [Container(imageName, podName, [])],
          map[OsSelectorKey := OsSelectorValue],
          [],
          PhaseUnset)];
      }
      i := i + 1;
    }
    if Distinct(uuids) {
      forall i, j | 0 <= i < j < |pods| ensures pods[i].name != pods[j].name {
        if pods[i].name == pods[j].name {
          PrefixInjective(PodNamePrefix, uuids[i], uuids[j]);
        }
      }
    }
  }

  // ---------------------------------------------------------------------------
  // Creation times

  /** createBatchPodWithRateControl: one entry per pod name, holding the clock
      reading taken just before that pod's create call; a repeated name keeps its
      last reading. `clock[i]` is the metav1.Now() reading for `pods[i]`. */
  method CreateBatchPodWithRateControl(pods: seq<Pod>, clock: seq<Time>)
    returns (createTimes: map<string, Time>)
    requires |clock| == |pods|
    ensures forall n :: n in createTimes <==> exists k :: 0 <= k < |pods| && pods[k].name == n
    ensures forall k :: 0 <= k < |pods| && (forall j :: k < j < |pods| ==> pods[j].name != pods[k].name) ==>
      createTimes[pods[k].name] == clock[k]
    ensures DistinctNames(pods) ==> |createTimes| == |pods|
    ensures DistinctNames(pods) ==> forall k :: 0 <= k < |pods| ==> createTimes[pods[k].name] == clock[k]
  {
    createTimes := map[];
    for i := 0 to |pods|
      invariant forall n :: n in createTimes <==> exists k :: 0 <= k < i && pods[k].name == n
      invariant forall k :: 0 <= k < i && (forall j :: k < j < i ==> pods[j].name != pods[k].name) ==>
        createTimes[pods[k].name] == clock[k]
    {
      createTimes := createTimes[pods[i].name := clock[i]];
    }
    if DistinctNames(pods) {
      var names := PodNames(pods);
      DistinctCard(names);
      forall x | x in createTimes ensures x in names {
        var k :| 0 <= k < |pods| && pods[k].name == x;
        assert names[k] == x;
      }
      assert createTimes.Keys == set x | x in names;
    }
  }

  // ---------------------------------------------------------------------------
  // Observation of running pods

  /** One add/update notification as checkPodRunning handles it: the pod, and the
      metav1.Now() reading taken while the handler holds the mutex. */
  datatype PodEvent = PodEvent(pod: Pod, now: Time)

  /** The effect of one checkPodRunning call on `watchTimes`. */
  function Observe(watchTimes: map<string, Time>, p: Pod, now: Time): (r: map<string, Time>)
    ensures forall n :: n in watchTimes ==> n in r && r[n] == watchTimes[n]
    ensures r.Keys <= watchTimes.Keys + {p.name}
    ensures p.name in r <==> p.name in watchTimes || p.phase == Running
    ensures p.name in r && p.name !in watchTimes ==> r[p.name] == now
  {
    if p.phase == Running && p.name !in watchTimes then watchTimes[p.name := now] else watchTimes
  }

  /** A second notification for the same pod changes nothing, whenever it comes. */
  lemma ObserveIdempotent(watchTimes: map<string, Time>, p: Pod, first: Time, later: Time)
    ensures Observe(Observe(watchTimes, p, first), p, later) == Observe(watchTimes, p, first)
  {
  }

  /** The map after the handler has processed `events` in order. */
  function ObserveAll(watchTimes: map<string, Time>, events: seq<PodEvent>): map<string, Time>
    decreases |events|
  {
    if events == [] then watchTimes
    else ObserveAll(Observe(watchTimes, events[0].pod, events[0].now), events[1..])
  }

  /** Handling one more notification is one more `Observe` step: a watcher whose
      map is `ObserveAll(m, s)` holds `ObserveAll(m, s + [e])` after
      `CheckPodRunning(e.pod, e.now)`. */
  lemma {:induction false} ObserveAllAppend(watchTimes: map<string, Time>, events: seq<PodEvent>, e: PodEvent)
    ensures ObserveAll(watchTimes, events + [e]) == Observe(ObserveAll(watchTimes, events), e.pod, e.now)
    decreases |events|
  {
    if events != [] {
      assert (events + [e])[1..] == events[1..] + [e];
      ObserveAllAppend(Observe(watchTimes, events[0].pod, events[0].now), events[1..], e);
    }
  }

  /** The names of the pods that some event reports as running. */
  function RunningNames(events: seq<PodEvent>): set<string>
    decreases |events|
  {
    if events == [] then {}
    else (if events[0].pod.phase == Running then {events[0].pod.name} else {}) + RunningNames(events[1..])
  }

  predicate IsRunningEventOf(e: PodEvent, name: string) {
    e.pod.name == name && e.pod.phase == Running
  }

  /** The map gains exactly the names of the pods seen running. */
  lemma {:induction false} ObserveAllKeys(watchTimes: map<string, Time>, events: seq<PodEvent>)
    ensures ObserveAll(watchTimes, events).Keys == watchTimes.Keys + RunningNames(events)
    decreases |events|
  {
    if events != [] {
      var e := events[0];
      ObserveAllKeys(Observe(watchTimes, e.pod, e.now), events[1..]);
    }
  }

  /** An entry, once made, is never overwritten. */
  lemma {:induction false} ObserveAllKeepsEntries(watchTimes: map<string, Time>, events: seq<PodEvent>, name: string)
    requires name in watchTimes
    ensures name in ObserveAll(watchTimes, events)
    ensures ObserveAll(watchTimes, events)[name] == watchTimes[name]
    decreases |events|
  {
    if events != [] {
      ObserveAllKeepsEntries(Observe(watchTimes, events[0].pod, events[0].now), events[1..], name);
    }
  }

  /** A pod's recorded time is the clock reading of the first event that saw it running. */
  lemma {:induction false} ObserveAllFirstRunningWins(
    watchTimes: map<string, Time>, events: seq<PodEvent>, name: string, i: nat)
    requires name !in watchTimes
    requires i < |events| && IsRunningEventOf(events[i], name)
    requires forall k :: 0 <= k < i ==> !IsRunningEventOf(events[k], name)
    ensures name in ObserveAll(watchTimes, events)
    ensures ObserveAll(watchTimes, events)[name] == events[i].now
    decreases i
  {
    var next := Observe(watchTimes, events[0].pod, events[0].now);
    if i == 0 {
      ObserveAllKeepsEntries(next, events[1..], name);
    } else {
      assert !IsRunningEventOf(events[0], name);
      ObserveAllFirstRunningWins(next, events[1..], name, i - 1);
    }
  }

  lemma {:induction false} RunningNamesAmong(events: seq<PodEvent>, names: set<string>)
    requires forall k :: 0 <= k < |events| ==> events[k].pod.name in names
    ensures RunningNames(events) <= names
    decreases |events|
  {
    if events != [] {
      assert forall k :: 0 <= k < |events[1..]| ==> events[1..][k] == events[k + 1];
      RunningNamesAmong(events[1..], names);
    }
  }

  /** When the informer only delivers the test's own pods, the map never holds more
      entries than there are pods. */
  lemma ObservedWithinPods(events: seq<PodEvent>, names: set<string>)
    requires forall k :: 0 <= k < |events| ==> events[k].pod.name in names
    ensures ObserveAll(map[], events).Keys <= names
    ensures |ObserveAll(map[], events)| <= |names|
  {
    ObserveAllKeys(map[], events);
    RunningNamesAmong(events, names);
    SubsetCard(ObserveAll(map[], events).Keys, names);
  }

  /** The map of first-observed running times shared by the informer's handlers. */
  class PodWatcher {
    var watchTimes: map<string, Time>

    constructor ()
      ensures watchTimes == map[]
    {
      watchTimes := map[];
    }

    /** checkPodRunning: records `now` for a pod seen running for the first time. */
    method CheckPodRunning(p: Pod, now: Time)
      modifies this
      ensures watchTimes == Observe(old(watchTimes), p, now)
    {
      if p.phase == Running {
        if p.name !in watchTimes {
          watchTimes := watchTimes[p.name := now];
        }
      }
    }
  }

  // ---------------------------------------------------------------------------
  // Latency analysis

  datatype PodLatencyData = PodLatencyData(name: string, latency: Duration)

  predicate SortedByLatency(s: seq<PodLatencyData>) {
    forall i, j :: 0 <= i < j < |s| ==> s[i].latency <= s[j].latency
  }

  function InsertByLatency(x: PodLatencyData, s: seq<PodLatencyData>): (r: seq<PodLatencyData>)
    requires SortedByLatency(s)
    ensures |r| == |s| + 1
    ensures r[0] == x || (s != [] && r[0] == s[0])
    ensures SortedByLatency(r)
    ensures multiset(r) == multiset(s) + multiset{x}
  {
    if s == [] then [x]
    else if x.latency <= s[0].latency then [x] + s
    else
      var rest := InsertByLatency(x, s[1..]);
      assert s == [s[0]] + s[1..];
      [s[0]] + rest
  }

  /** Stands for sort.Sort over framework.LatencySlice: ascending by latency, and
      a rearrangement of its input. */
  function SortByLatency(s: seq<PodLatencyData>): (r: seq<PodLatencyData>)
    ensures SortedByLatency(r)
    ensures multiset(r) == multiset(s)
  {
    if s == [] then []
    else
      assert s == [s[0]] + s[1..];
      InsertByLatency(s[0], SortByLatency(s[1..]))
  }

  /** `rec` is the startup latency of the pod it names. */
  predicate IsLatencyOf(rec: PodLatencyData, createTimes: map<string, Time>, watchTimes: map<string, Time>) {
    && rec.name in createTimes
    && rec.name in watchTimes
    && rec.latency == Sub(watchTimes[rec.name], createTimes[rec.name])
  }

  /** Go's `range` over a map visits every key once, in an unspecified order. */
  ghost predicate IsIterationOrder(order: seq<string>, createTimes: map<string, Time>) {
    Distinct(order) && forall n :: n in order <==> n in createTimes
  }

  ghost predicate IsMinCreate(t: Time, createTimes: map<string, Time>) {
    && (exists n :: n in createTimes && createTimes[n] == t)
    && (forall n :: n in createTimes ==> t <= createTimes[n])
  }

  ghost predicate IsMaxWatch(t: Time, createTimes: map<string, Time>, watchTimes: map<string, Time>) {
    && (exists n :: n in createTimes && n in watchTimes && watchTimes[n] == t)
    && (forall n :: n in createTimes && n in watchTimes ==> watchTimes[n] <= t)
  }

  /** `rec` is the latency of pod `name`, running since `watchTimes[name]` and
      created at `created`. */
  predicate MeasuredFrom(rec: PodLatencyData, name: string, watchTimes: map<string, Time>, created: Time) {
    && rec.name == name
    && name in watchTimes
    && rec.latency == Sub(watchTimes[name], created)
  }

  /** `rec` is the latency of the i-th pod of the run, for some i: the pod named
      after the i-th UUID and created at the i-th clock reading. */
  ghost predicate IsLatencyOfTestPod(rec: PodLatencyData, uuids: seq<string>, clock: seq<Time>, watchTimes: map<string, Time>) {
    exists i :: 0 <= i < |clock| && i < |uuids| && MeasuredFrom(rec, PodNamePrefix + uuids[i], watchTimes, clock[i])
  }

  /** Some record of `lags` is that of pod `name`. */
  predicate HasRecordFor(lags: seq<PodLatencyData>, name: string) {
    exists k :: 0 <= k < |lags| && lags[k].name == name
  }

  /** `t` is the earliest of the clock readings taken at creation. */
  ghost predicate IsEarliest(t: Time, clock: seq<Time>) {
    && (exists i :: 0 <= i < |clock| && clock[i] == t)
    && (forall i :: 0 <= i < |clock| ==> t <= clock[i])
  }

  /** `t` is the latest time at which one of the first `n` pods of the run was
      first observed running. */
  ghost predicate IsLatestRunning(t: Time, uuids: seq<string>, n: int, watchTimes: map<string, Time>) {
    && (exists i :: 0 <= i < n && i < |uuids| &&
          PodNamePrefix + uuids[i] in watchTimes && watchTimes[PodNamePrefix + uuids[i]] == t)
    && (forall i :: 0 <= i < n && i < |uuids| && PodNamePrefix + uuids[i] in watchTimes ==>
          watchTimes[PodNamePrefix + uuids[i]] <= t)
  }

  /** What walking the creation times yields: the unsorted records with the
      earliest creation and latest running time, or the first pod found that was
      never observed running. */
  datatype Scan =
    | Scanned(firstCreate: Time, lastRunning: Time, records: seq<PodLatencyData>)
    | Unobserved(name: string)

  /** The `range createTimes` loop of runDensityBatchTest: visits the pods in
      `order`, requiring each to have been observed running, appends one latency
      record per pod, and keeps the earliest creation and latest running time,
      both seeded by the first pod visited. */
  method CollectLatencies(createTimes: map<string, Time>, watchTimes: map<string, Time>, order: seq<string>)
    returns (r: Scan)
    requires IsIterationOrder(order, createTimes)
    ensures r.Unobserved? <==> !(createTimes.Keys <= watchTimes.Keys)
    ensures r.Unobserved? ==> r.name in createTimes && r.name !in watchTimes
    ensures r.Scanned? ==> |r.records| == |order|
    ensures r.Scanned? ==> forall k :: 0 <= k < |order| ==>
      order[k] in watchTimes &&
      r.records[k] == PodLatencyData(order[k], Sub(watchTimes[order[k]], createTimes[order[k]]))
    ensures r.Scanned? && createTimes == map[] ==> r.firstCreate == 0 && r.lastRunning == 0
    ensures r.Scanned? && createTimes != map[] ==>
      IsMinCreate(r.firstCreate, createTimes) && IsMaxWatch(r.lastRunning, createTimes, watchTimes)
  {
    var firstCreate: Time, lastRunning: Time := 0, 0;
    var init := true;
    var e2eLags: seq<PodLatencyData> := [];
    // positions in `order` of the pods that supplied `firstCreate` and `lastRunning`
    ghost var first, last := 0, 0;
    var i := 0;
    while i < |order|
      invariant 0 <= i <= |order|
      invariant init <==> i == 0
      invariant forall k :: 0 <= k < i ==> order[k] in watchTimes
      invariant |e2eLags| == i
      invariant forall k :: 0 <= k < i ==>
        e2eLags[k] == PodLatencyData(order[k], Sub(watchTimes[order[k]], createTimes[order[k]]))
      invariant i == 0 ==> firstCreate == 0 && lastRunning == 0
      invariant i > 0 ==> 0 <= first < i && createTimes[order[first]] == firstCreate
      invariant forall k :: 0 <= k < i ==> firstCreate <= createTimes[order[k]]
      invariant i > 0 ==> 0 <= last < i && watchTimes[order[last]] == lastRunning
      invariant forall k :: 0 <= k < i ==> watchTimes[order[k]] <= lastRunning
    {
      var name := order[i];
      var create := createTimes[name];
      if name !in watchTimes {
        return Unobserved(name);
      }
      var watch := watchTimes[name];
      e2eLags := e2eLags + [PodLatencyData(name, Sub(watch, create))];
      if !init {
        if firstCreate > create {
          firstCreate, first := create, i;
        }
        if lastRunning < watch {
          lastRunning, last := watch, i;
        }
      } else {
        init := false;
        firstCreate, lastRunning := create, watch;
        first, last := i, i;
      }
      i := i + 1;
    }
    r := Scanned(firstCreate, lastRunning, e2eLags);
    if createTimes != map[] {
      assert order[0] in createTimes;
      assert order[first] in createTimes && order[last] in createTimes;
    }
  }

  datatype Analysis =
    | Analyzed(firstCreate: Time, lastRunning: Time, batchLag: Duration, e2eLags: seq<PodLatencyData>)
    | MissingWatch(name: string)

  /** The analysis block of runDensityBatchTest: collects the records, sorts them
      and measures the batch span. On success there is exactly one record per
      created pod, holding that pod's latency, none longer than the batch span. */
  method AnalyzeBatch(createTimes: map<string, Time>, watchTimes: map<string, Time>, order: seq<string>)
    returns (r: Analysis)
    requires IsIterationOrder(order, createTimes)
    ensures r.MissingWatch? <==> !(createTimes.Keys <= watchTimes.Keys)
    ensures r.MissingWatch? ==> r.name in createTimes && r.name !in watchTimes
    ensures r.Analyzed? ==> |r.e2eLags| == |createTimes|
    ensures r.Analyzed? ==> forall k :: 0 <= k < |r.e2eLags| ==> IsLatencyOf(r.e2eLags[k], createTimes, watchTimes)
    ensures r.Analyzed? ==> forall n :: n in createTimes ==> exists k :: 0 <= k < |r.e2eLags| && r.e2eLags[k].name == n
    ensures r.Analyzed? ==> SortedByLatency(r.e2eLags)
    ensures r.Analyzed? && createTimes == map[] ==> r.firstCreate == 0 && r.lastRunning == 0
    ensures r.Analyzed? && createTimes != map[] ==>
      IsMinCreate(r.firstCreate, createTimes) && IsMaxWatch(r.lastRunning, createTimes, watchTimes)
    ensures r.Analyzed? ==> r.batchLag == Sub(r.lastRunning, r.firstCreate)
    ensures r.Analyzed? ==> forall k :: 0 <= k < |r.e2eLags| ==> r.e2eLags[k].latency <= r.batchLag
  {
    var scan := CollectLatencies(createTimes, watchTimes, order);
    match scan
    case Unobserved(name) =>
      r := MissingWatch(name);
    case Scanned(firstCreate, lastRunning, records) =>
      var sorted := SortByLatency(records);
      r := Analyzed(firstCreate, lastRunning, Sub(lastRunning, firstCreate), sorted);
      SortedRecordsDescribeBatch(createTimes, watchTimes, order, records, sorted, firstCreate, lastRunning);
  }

  /** Sorting the records collected in `order` loses none and invents none: there
      is one per pod, each holds that pod's latency, and none exceeds the span from
      the earliest creation to the latest observation. */
  lemma SortedRecordsDescribeBatch(
    createTimes: map<string, Time>, watchTimes: map<string, Time>, order: seq<string>,
    unsorted: seq<PodLatencyData>, sorted: seq<PodLatencyData>, firstCreate: Time, lastRunning: Time)
    requires IsIterationOrder(order, createTimes)
    requires |unsorted| == |order|
    requires forall k :: 0 <= k < |order| ==>
      order[k] in watchTimes &&
      unsorted[k] == PodLatencyData(order[k], Sub(watchTimes[order[k]], createTimes[order[k]]))
    requires createTimes != map[] ==>
      IsMinCreate(firstCreate, createTimes) && IsMaxWatch(lastRunning, createTimes, watchTimes)
    requires multiset(sorted) == multiset(unsorted)
    ensures |sorted| == |createTimes|
    ensures forall k :: 0 <= k < |sorted| ==> IsLatencyOf(sorted[k], createTimes, watchTimes)
    ensures forall k :: 0 <= k < |sorted| ==> sorted[k].latency <= Sub(lastRunning, firstCreate)
    ensures forall n :: n in createTimes ==> exists k :: 0 <= k < |sorted| && sorted[k].name == n
  {
    DistinctCard(order);
    assert createTimes.Keys == set x | x in order;
    assert |sorted| == |unsorted| by {
      assert |multiset(sorted)| == |multiset(unsorted)|;
    }
    forall k | 0 <= k < |sorted|
      ensures IsLatencyOf(sorted[k], createTimes, watchTimes)
      ensures sorted[k].latency <= Sub(lastRunning, firstCreate)
    {
      assert sorted[k] in multiset(unsorted);
      var j :| 0 <= j < |unsorted| && unsorted[j] == sorted[k];
      SubMonotone(watchTimes[order[j]], createTimes[order[j]], lastRunning, firstCreate);
    }
    forall n | n in createTimes ensures exists k :: 0 <= k < |sorted| && sorted[k].name == n {
      var j :| 0 <= j < |order| && order[j] == n;
      assert unsorted[j] in multiset(sorted);
      var k :| 0 <= k < |sorted| && sorted[k] == unsorted[j];
    }
  }

  // ---------------------------------------------------------------------------
  // The whole batch run

  datatype BatchOutcome =
    | BatchResult(batchLag: Duration, e2eLags: seq<PodLatencyData>)
    | WatchTimeout(observed: nat)
    | AssertionFailure(name: string)

  /** The names the run gives its pods: one per generated UUID used. */
  ghost function TestPodNames(uuids: seq<string>, podsNr: int): set<string>
    requires podsNr <= |uuids|
  {
    set i | 0 <= i < podsNr :: PodNamePrefix + uuids[i]
  }

  /** The creation half of runDensityBatchTest: builds `podsNr` pods without
      volumes and creates them, `clock[i]` being the reading for the i-th pod.
      Every pod gets its own entry, keyed by its name. */
  method CreateTestPods(podsNr: int, pauseImage: string, uuids: seq<string>, clock: seq<Time>)
    returns (createTimes: map<string, Time>)
    requires podsNr <= |uuids| && Distinct(uuids)
    requires |clock| == if podsNr < 0 then 0 else podsNr
    ensures createTimes.Keys == TestPodNames(uuids, podsNr)
    ensures |createTimes| == |clock|
    ensures forall i :: 0 <= i < |clock| ==> createTimes[PodNamePrefix + uuids[i]] == clock[i]
  {
    var pods := NewTestPods(podsNr, false, pauseImage, PodType, uuids);
    createTimes := CreateBatchPodWithRateControl(pods, clock);
    forall n | n in TestPodNames(uuids, podsNr) ensures n in createTimes {
      var i :| 0 <= i < podsNr && n == PodNamePrefix + uuids[i];
      assert pods[i].name == n;
    }
  }

  /** runDensityBatchTest without its goroutines: builds and creates `podsNr`
      pods, waits until the watcher has seen `podsNr` pods running (the handler
      having processed `events` by then), and analyses the result. The informer
      only delivers pods carrying the run's label, so every event names one of the
      run's pods; `order` is the iteration order of the creation-time map. */
  method RunDensityBatchTest(
    podsNr: int, pauseImage: string, uuids: seq<string>, clock: seq<Time>,
    events: seq<PodEvent>, order: seq<string>)
    returns (r: BatchOutcome, ghost firstCreate: Time, ghost lastRunning: Time)
    requires podsNr <= |uuids| && Distinct(uuids)
    requires |clock| == if podsNr < 0 then 0 else podsNr
    requires forall k :: 0 <= k < |events| ==> events[k].pod.name in TestPodNames(uuids, podsNr)
    requires Distinct(order) && forall n :: n in order <==> n in TestPodNames(uuids, podsNr)
    ensures r.WatchTimeout? <==> |ObserveAll(map[], events)| != podsNr
    ensures !r.AssertionFailure?
    ensures r.BatchResult? ==> |r.e2eLags| == podsNr && SortedByLatency(r.e2eLags)
    ensures r.BatchResult? ==> forall i :: 0 <= i < |clock| ==> HasRecordFor(r.e2eLags, PodNamePrefix + uuids[i])
    ensures r.BatchResult? ==> forall k :: 0 <= k < |r.e2eLags| ==>
      IsLatencyOfTestPod(r.e2eLags[k], uuids, clock, ObserveAll(map[], events))
    ensures r.BatchResult? ==> r.batchLag == Sub(lastRunning, firstCreate)
    ensures r.BatchResult? && podsNr <= 0 ==> firstCreate == 0 && lastRunning == 0
    ensures r.BatchResult? && podsNr > 0 ==>
      IsEarliest(firstCreate, clock) && IsLatestRunning(lastRunning, uuids, podsNr, ObserveAll(map[], events))
    ensures r.BatchResult? ==> forall k :: 0 <= k < |r.e2eLags| ==> r.e2eLags[k].latency <= r.batchLag
  {
    firstCreate, lastRunning := 0, 0;
    var createTimes := CreateTestPods(podsNr, pauseImage, uuids, clock);
    var watchTimes := ObserveAll(map[], events);

    GatePassedMeansEveryPodObserved(uuids, podsNr, createTimes, events, order);
    if |watchTimes| != podsNr {
      r := WatchTimeout(|watchTimes|);
      return;
    }

    var analysis := AnalyzeBatch(createTimes, watchTimes, order);
    match analysis
    case MissingWatch(name) =>
      r := AssertionFailure(name);
    case Analyzed(first, last, batchLag, e2eLags) =>
      r := BatchResult(batchLag, e2eLags);
      firstCreate, lastRunning := first, last;
      RecordsNameTestPods(uuids, clock, createTimes, watchTimes, e2eLags);
      BatchSpanOfTestPods(uuids, clock, createTimes, watchTimes, first, last);
  }

  /** The completion gate is enough: once the watcher holds as many entries as
      the run has pods, every pod with a creation time has a running time too,
      so the analysis never fails its assertion. The watcher can never hold more
      entries than that. */
  lemma GatePassedMeansEveryPodObserved(
    uuids: seq<string>, podsNr: int,
    createTimes: map<string, Time>, events: seq<PodEvent>, order: seq<string>)
    requires podsNr <= |uuids|
    requires createTimes.Keys == TestPodNames(uuids, podsNr)
    requires |createTimes| == if podsNr < 0 then 0 else podsNr
    requires forall k :: 0 <= k < |events| ==> events[k].pod.name in TestPodNames(uuids, podsNr)
    requires Distinct(order) && forall n :: n in order <==> n in TestPodNames(uuids, podsNr)
    ensures IsIterationOrder(order, createTimes)
    ensures |ObserveAll(map[], events)| <= |createTimes|
    ensures |ObserveAll(map[], events)| == podsNr ==> createTimes.Keys == ObserveAll(map[], events).Keys
  {
    var names := TestPodNames(uuids, podsNr);
    ObservedWithinPods(events, names);
    var watchTimes := ObserveAll(map[], events);
    if |watchTimes| == podsNr {
      SubsetFull(watchTimes.Keys, names);
    }
  }

  /** Each latency record of the run is that of one of its pods, measured from the
      clock reading taken when the pod was created. */
  lemma RecordsNameTestPods(
    uuids: seq<string>, clock: seq<Time>,
    createTimes: map<string, Time>, watchTimes: map<string, Time>, lags: seq<PodLatencyData>)
    requires |clock| <= |uuids|
    requires createTimes.Keys == TestPodNames(uuids, |clock|)
    requires forall i :: 0 <= i < |clock| ==> createTimes[PodNamePrefix + uuids[i]] == clock[i]
    requires forall k :: 0 <= k < |lags| ==> IsLatencyOf(lags[k], createTimes, watchTimes)
    requires forall n :: n in createTimes ==> exists k :: 0 <= k < |lags| && lags[k].name == n
    ensures forall k :: 0 <= k < |lags| ==> IsLatencyOfTestPod(lags[k], uuids, clock, watchTimes)
    ensures forall i :: 0 <= i < |clock| ==> HasRecordFor(lags, PodNamePrefix + uuids[i])
  {
    forall i | 0 <= i < |clock| ensures HasRecordFor(lags, PodNamePrefix + uuids[i]) {
      assert PodNamePrefix + uuids[i] in createTimes;
    }
    forall k | 0 <= k < |lags| ensures IsLatencyOfTestPod(lags[k], uuids, clock, watchTimes) {
      assert IsLatencyOf(lags[k], createTimes, watchTimes);
      var i :| 0 <= i < |clock| && lags[k].name == PodNamePrefix + uuids[i];
      assert MeasuredFrom(lags[k], PodNamePrefix + uuids[i], watchTimes, clock[i]);
    }
  }

  /** The batch span runs from the earliest creation reading of the run to the
      latest time one of its pods was first seen running. */
  lemma BatchSpanOfTestPods(
    uuids: seq<string>, clock: seq<Time>,
    createTimes: map<string, Time>, watchTimes: map<string, Time>, firstCreate: Time, lastRunning: Time)
    requires |clock| <= |uuids|
    requires createTimes.Keys == TestPodNames(uuids, |clock|)
    requires forall i :: 0 <= i < |clock| ==> createTimes[PodNamePrefix + uuids[i]] == clock[i]
    requires createTimes != map[] ==>
      IsMinCreate(firstCreate, createTimes) && IsMaxWatch(lastRunning, createTimes, watchTimes)
    ensures |clock| > 0 ==> IsEarliest(firstCreate, clock) && IsLatestRunning(lastRunning, uuids, |clock|, watchTimes)
  {
    if |clock| > 0 {
      assert PodNamePrefix + uuids[0] in createTimes;
      var n :| n in createTimes && createTimes[n] == firstCreate;
      var i :| 0 <= i < |clock| && n == PodNamePrefix + uuids[i];
      assert clock[i] == firstCreate;
      var m :| m in createTimes && m in watchTimes && watchTimes[m] == lastRunning;
      var j :| 0 <= j < |clock| && m == PodNamePrefix + uuids[j];
      assert watchTimes[PodNamePrefix + uuids[j]] == lastRunning;
      forall k | 0 <= k < |clock| ensures firstCreate <= clock[k] {
        assert PodNamePrefix + uuids[k] in createTimes;
      }
      forall k | 0 <= k < |clock| && PodNamePrefix + uuids[k] in watchTimes
        ensures watchTimes[PodNamePrefix + uuids[k]] <= lastRunning
      {
        assert PodNamePrefix + uuids[k] in createTimes;
      }
    }
  }
}
