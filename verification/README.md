# Cinder PV translation and Windows pod-density bookkeeping

This project models two sequential pieces of Kubernetes in Dafny.

**The OpenStack Cinder CSI translator** (`openstack_cinder.dfy`, module
`OpenStackCinder`). It moves a PersistentVolume between the in-tree Cinder
volume source and the Cinder CSI volume source.
- The PersistentVolume is a class whose `cinder` and `csi` fields the two
  translations rewrite in place. Each translation returns the same object, or an
  error when the volume is nil or lacks the source being translated.
- `CanSupport`, the storage-class parameter translation and the plugin name are
  pure functions.
- The two round trips are client methods that call both translations in turn.
  Their contracts say which fields come back and which are dropped.

**The sequential bookkeeping of the Windows density test** (`density.dfy`, module
`WindowsDensity`):
- building the pod specifications (`NewTestPods`);
- recording one creation time per pod (`CreateBatchPodWithRateControl`);
- the informer handler that records the first time each pod is seen running
  (`PodWatcher.CheckPodRunning`, specified by `Observe`, with `ObserveAll` as the
  fold over a sequence of notifications);
- the analysis after the completion gate (`CollectLatencies`, `AnalyzeBatch`):
  per-pod latency `watch - create`, the earliest creation and latest running time
  seeded by the first pod visited, the sorted latency records and the batch span.
  `RunDensityBatchTest` composes these pieces. It proves that once the gate passes,
  the analysis never fails its per-pod assertion.

Timestamps are integers counting nanoseconds. Every timestamp the test compares
comes from `metav1.Now()`, which carries a monotonic clock reading, so
`time.Time.Sub`, `After` and `Before` all work on that reading. `Time` stands
for it. `time.Time.Sub` saturates to the signed 64-bit range of
`time.Duration`, and `Sub` models that explicitly. Several
inputs are parameters:
- every `metav1.Now()` reading (`clock`, and the `now` of each notification);
- every generated UUID (`uuids`);
- the iteration order of the creation-time map (`order`);
- the image name.

`wrappers.dfy` holds `Option` (Go's nil pointer) and `Result` (Go's
`(value, error)` pair).

## Model

| member | source | states |
|---|---|---|
| OpenStackCinder.CanSupport | staging/src/k8s.io/csi-translation-lib/plugins/openstack_cinder.go:91-93 | the plugin supports a volume exactly when it is non-nil and has an in-tree Cinder source |
| OpenStackCinder.TranslateInTreeStorageClassParametersToCSI | staging/src/k8s.io/csi-translation-lib/plugins/openstack_cinder.go:42-44 | never fails, and returns the storage-class parameters unchanged |
| OpenStackCinder.GetInTreePluginName | staging/src/k8s.io/csi-translation-lib/plugins/openstack_cinder.go:96-98 | always the in-tree plugin name "kubernetes.io/cinder" |
| OpenStackCinder.TranslateInTreePVToCSI | staging/src/k8s.io/csi-translation-lib/plugins/openstack_cinder.go:48-66 | fails, with its fixed message and the PV untouched, exactly when the PV is nil or has no Cinder source. Otherwise it returns the same PV with Cinder cleared and a CSI source added: driver "cinder.csi.openstack.org", handle = volume ID, same read-only flag and fs type, empty attributes, no secrets. Name and storage class are unchanged, and `CanSupport` is false afterwards |
| OpenStackCinder.TranslateCSIPVToInTree | staging/src/k8s.io/csi-translation-lib/plugins/openstack_cinder.go:70-86 | fails, with its fixed message and the PV untouched, exactly when the PV is nil or has no CSI source. Otherwise it returns the same PV with CSI cleared and a Cinder source of volume ID = handle, same fs type and read-only flag, and no secret. `CanSupport` is true afterwards |
| OpenStackCinder.InTreeRoundTrip | staging/src/k8s.io/csi-translation-lib/plugins/openstack_cinder.go:53-85 | in-tree -> CSI -> in-tree succeeds exactly when `CanSupport` held. The volume ID, fs type and read-only flag come back, the secret reference is lost, and no CSI source remains |
| OpenStackCinder.CSIRoundTrip | staging/src/k8s.io/csi-translation-lib/plugins/openstack_cinder.go:53-85 | CSI -> in-tree -> CSI succeeds exactly when a CSI source was present. The handle, fs type and read-only flag come back; the driver becomes the Cinder driver; attributes and secrets are dropped |
| WindowsDensity.Sub | test/e2e/windows/density.go:160 | `watch.Time.Sub(create.Time)`: the exact difference when it fits a Duration, otherwise the nearest bound; negative exactly when the end is before the start |
| WindowsDensity.SubMonotone | test/e2e/windows/density.go:160 | a later end or an earlier start never gives a shorter span |
| WindowsDensity.NewTestPods | test/e2e/windows/density.go:225-283 | returns `numPods` pods, or none for a negative count. Pod i is named "test-" + the i-th UUID and labelled {type, name}, with node selector os=windows and one container of the image named after the pod. With `volume`, it also has exactly one empty-dir volume "<name>-volume" mounted at "/test-volume-mnt"; without it, no volume and no mount. Distinct UUIDs give distinct names |
| WindowsDensity.CreateBatchPodWithRateControl | test/e2e/windows/density.go:167-177 | the keys are exactly the pod names. Each name holds the clock reading of its last occurrence. With distinct names there is one entry per pod, holding that pod's reading |
| WindowsDensity.Observe | test/e2e/windows/density.go:182-192 | existing entries are never changed. At most the observed pod's name is added, and it is added exactly when the pod is Running and absent, with the current time |
| WindowsDensity.PodWatcher.CheckPodRunning | test/e2e/windows/density.go:182-192 | the handler updates the shared map as `Observe` says |
| WindowsDensity.ObserveIdempotent | test/e2e/windows/density.go:188-190 | a second notification for the same pod changes nothing, whatever its time |
| WindowsDensity.ObserveAllAppend | test/e2e/windows/density.go:182-192 | one more handler call after a sequence of notifications is one more `Observe` step, so a watcher that has handled the notifications in order holds `ObserveAll` of them |
| WindowsDensity.ObserveAllKeys | test/e2e/windows/density.go:182-192 | after a sequence of notifications, the keys are the old keys plus the names of the pods reported Running |
| WindowsDensity.ObserveAllKeepsEntries | test/e2e/windows/density.go:189-190 | an entry, once made, survives every later notification unchanged |
| WindowsDensity.ObserveAllFirstRunningWins | test/e2e/windows/density.go:188-190 | a pod's recorded time is the time of the first notification that saw it Running |
| WindowsDensity.ObservedWithinPods | test/e2e/windows/density.go:182-192 | when every notification names one of the run's pods, the map holds only those names and no more entries than there are pods |
| WindowsDensity.SortByLatency | test/e2e/windows/density.go:159 | the records come out ascending by latency and as a permutation of the input |
| WindowsDensity.CollectLatencies | test/e2e/windows/density.go:132-157 | fails exactly when some created pod was never observed, naming such a pod. Otherwise it holds one record per pod, in visiting order, with latency `Sub(watch, create)`. `firstCreate` is the minimum creation time and `lastRunning` the maximum watch time, both attained; an empty map leaves both zero |
| WindowsDensity.AnalyzeBatch | test/e2e/windows/density.go:132-160 | the same failure condition as `CollectLatencies`. On success: exactly one record per created pod, each with that pod's latency, sorted ascending; min/max as above; `batchLag = Sub(lastRunning, firstCreate)`, at least every latency |
| WindowsDensity.SortedRecordsDescribeBatch | test/e2e/windows/density.go:139-160 | sorting the collected records keeps one record per pod, each that pod's latency, and none exceeds the batch span |
| WindowsDensity.CreateTestPods | test/e2e/windows/density.go:109-119 | the creation map of a run has one entry per test pod, keyed "test-" + UUID and holding that pod's clock reading |
| WindowsDensity.RunDensityBatchTest | test/e2e/windows/density.go:99-165 | the run times out exactly when the watcher did not reach `podsNr` entries, and it never fails the per-pod assertion. A completed run yields `podsNr` sorted records: every pod has one, and each is the latency of one of the run's pods, measured from that pod's creation reading. `batchLag` is `Sub(lastRunning, firstCreate)`, where `firstCreate` is the earliest creation reading and `lastRunning` the latest first-running time of the run's pods (both 0 for an empty batch). No latency exceeds `batchLag` |
| WindowsDensity.GatePassedMeansEveryPodObserved | test/e2e/windows/density.go:123-141 | the watcher never holds more entries than there are pods. Once it holds `podsNr` entries, its keys are exactly the created pods, so the assertion at line 141 cannot fail |
| WindowsDensity.RecordsNameTestPods | test/e2e/windows/density.go:139-144 | each latency record belongs to the pod named after some UUID i and is measured from the i-th creation reading, and every pod of the run has a record |
| WindowsDensity.BatchSpanOfTestPods | test/e2e/windows/density.go:146-160 | the earliest creation time is the minimum of the run's clock readings, and the latest running time is the maximum first-running time over the run's pods |

## Left out

- Goroutines, the mutex, `sync.WaitGroup` and `deletePodsSync`. Handler calls are modelled as a sequence of atomic steps (`ObserveAll`), and pod creation as a sequential loop.
- The informer, ListWatch, label selectors and API client calls (create, delete, wait). These are cluster I/O. The informer is assumed to deliver only the run's own pods, which is a precondition of `RunDensityBatchTest`.
- `time.Sleep` rate control and the clock. `metav1.Now()` readings are inputs, and nothing assumes they increase.
- `gomega.Eventually` polling and its ten-minute timeout. The gate is modelled by its outcome: the run stops with `WatchTimeout` unless the watcher holds `podsNr` entries.
- `uuid.NewUUID()`. The UUIDs are a parameter, distinct by precondition.
- `sort.Sort` and `framework.LatencySlice`. The comparator is not part of this model. `SortByLatency` assumes it orders ascending by latency, and states only "sorted and a permutation". It is a functional sort, so the in-place reordering of the slice is not modelled.
- `imageutils.GetPauseImageName()`. The image name is a parameter.
- The rest of `v1.Pod` and `v1.PersistentVolume`. Only the fields the code reads or writes are modelled, plus a PV's name and storage class as witnesses that nothing else changes.
- Ginkgo registration, the `densityTest` configuration and framework setup. These are test-runner glue, and the batch size is the parameter `podsNr`.
