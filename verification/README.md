# Leader-election configuration and job-retention controller, in Dafny

This project models the two pieces of sequential decision logic in the
`k8s-examples` repository.

- **Leader-election wrapper** (`01-leader-election/pkg/leaderelection/election.go`).
  `checkAndSetConfig` rejects a config without a lease lock namespace. It fills
  an empty member ID with `<hostname>_<uuid>`. It fills an empty lock name and
  an empty component name with `"leader-election"`, and zero durations with
  15 s, 10 s and 2 s. Durations are Go `time.Duration` values, which are
  signed 64-bit nanosecond counts.
  `NewElectionWithKubeConfig` runs this check before it builds the clientset,
  the event sink, the Lease lock and the elector. It always sets
  `ReleaseOnCancel`. `NewElection` loads the rest config before it checks the
  config, so a loader failure is reported first (`RestConfigErrorPrecedesCheck`).
  `buildConfig`
  uses the explicit master/kubeconfig loader when either value is set, and the
  in-cluster loader otherwise.
- **Job-retention controller** (`02-core-controller/pkg/controller/JobController.go`).
  `handleJob` looks a job up through the lister. A job that no longer exists
  needs no action. Any other lister error is returned as it is. A job that has
  not finished needs no action. A finished job that has been done for strictly
  more than the retention is deleted by `deleteJobAndPods`. That function
  deletes the pods labelled `job-name=<name>` first, and deletes the job only
  if the pod delete worked. The informer's add and update handlers enqueue the
  object's key. The delete handler enqueues nothing.

Files:
- `common.dfy` defines `Option`, `Result` and `Outcome`, the type of Go
  `int64` values, and two's-complement wrap-around.
- `leader_election.dfy` is the module `LeaderElection`.
- `job_controller.dfy` is the module `JobController`.

Every call into client-go or the operating system is an input to the model,
given as the outcome it reports. These calls are: the host name, the UUID, the
two rest-config loaders, clientset, lock and elector construction, the lister
`Get`, `DeleteCollection`, `Delete` and `cache.MetaNamespaceKeyFunc`. The
clock is an input too: `now` is given in Unix seconds. A constructor's effects
are recorded as the ordered list of external steps it attempted. A reconcile's
effects are the ordered list of delete calls plus the returned error.

## Model

| member | source | states |
|---|---|---|
| LeaderElection.CheckAndSetConfig | 01-leader-election/pkg/leaderelection/election.go:153-183 | An empty lock namespace fails with the namespace error. An empty member ID with a failing host lookup fails with the host-name error. Any other input succeeds. On error the caller's config is unchanged. On success every defaulted field is non-empty or non-zero, every set field and the untouched fields (namespace, master, kubeconfig, callbacks) are kept, and every unset field holds its default. With all durations defaulted, 0 < retry < renew < lease. |
| LeaderElection.CheckAndSetConfigUnique | 01-leader-election/pkg/leaderelection/election.go:158-180 | The field-wise rules "keep what is set, default what is not" determine the result: any config meeting them is the produced one. |
| LeaderElection.CheckAndSetConfigIdempotent | 01-leader-election/pkg/leaderelection/election.go:153-183 | Applying the check to its own output succeeds and changes nothing, whatever the host then answers. |
| LeaderElection.GeneratedMemberId | 01-leader-election/pkg/leaderelection/election.go:158-165 | A generated member ID is the host name, then `_`, then the UUID. It is therefore never empty. |
| LeaderElection.SelectSource | 01-leader-election/pkg/leaderelection/election.go:146-151 | The explicit loader is chosen iff master or kubeconfig is non-empty, and it receives both values. Otherwise the in-cluster loader is chosen. |
| LeaderElection.BuildConfig | 01-leader-election/pkg/leaderelection/election.go:146-151 | Only the selected loader's outcome matters. Its error is returned unwrapped. On success the rest config records the selected source. |
| LeaderElection.Build | 01-leader-election/pkg/leaderelection/election.go:90-135 | The plan is clientset, event sink, recorder, Lease lock, elector. A clientset error stops after the first step and is returned unwrapped. A lock error stops after the fourth step, is wrapped as a lock error, and the elector is never built. An elector error comes after the whole plan and is wrapped as an elector error. Success iff all three fallible calls succeed, and then the whole plan ran and the election holds the config and its elector settings. |
| LeaderElection.NewElectionWithKubeConfig | 01-leader-election/pkg/leaderelection/election.go:84-136 | The caller's config ends up as the check left it. A check error short-circuits with no external step attempted. Any attempted step implies the check passed. Once the check passes, the construction is exactly `Build` of the defaulted config. On success the election holds the caller's (now defaulted) config, which is complete and keeps the caller's values; the lock identity is the member ID, and release-on-cancel is set. |
| LeaderElection.NewElectionWithKubeConfigMessages | 01-leader-election/pkg/leaderelection/election.go:84-130 | The returned error text for each failing step: the namespace text, `unable to get hostname: ` plus the cause, a clientset error unchanged, `couldn't create resource lock: ` plus the cause, and `couldn't create leader elector: ` plus the cause. |
| LeaderElection.NewElection | 01-leader-election/pkg/leaderelection/election.go:75-82 | The first step is always loading the rest config from the selected source. If that fails, its error is returned, the config is untouched and nothing else runs. Otherwise the result is `NewElectionWithKubeConfig`'s, with the load step in front. |
| LeaderElection.RestConfigErrorPrecedesCheck | 01-leader-election/pkg/leaderelection/election.go:75-88 | A rest-config failure is reported even for a config the check would reject. The config is then not modified. |
| LeaderElection.ElectionUsesDefaultedConfig | 01-leader-election/pkg/leaderelection/election.go:100-127 | A successful election's lock uses kind `leases` and the defaulted namespace, name, member ID and component. Its elector uses the defaulted durations, the caller's callbacks and release-on-cancel. Six steps ran. |
| JobController.PodSelector | 02-core-controller/pkg/controller/JobController.go:92-93 | The selector is `job-name`, then `=`, then the job name. |
| JobController.PodSelectorInjective | 02-core-controller/pkg/controller/JobController.go:92-94 | Two different job names never give the same pod selector. |
| JobController.DeleteJobAndPods | 02-core-controller/pkg/controller/JobController.go:91-99 | The pod delete with the job's selector is always attempted first. The job delete is attempted iff the pod delete succeeded, and then it is on the same namespace and name. A pod-delete error is returned. Otherwise the job delete's outcome is returned. |
| JobController.Elapsed | 02-core-controller/pkg/controller/JobController.go:78 | The result is congruent to the true difference modulo 2^64, as Go's `int64` subtraction is. Whenever the true difference fits in an `int64`, it is the true difference. |
| JobController.HandleJob | 02-core-controller/pkg/controller/JobController.go:61-89 | Not-found gives success and no delete. Any other lister error is returned as it is, with no delete. An unfinished job gives success and no delete. A delete is attempted iff the job was found, is finished and is past retention, and then the deletes and the result are `DeleteJobAndPods`'s. Every returned error comes from the lister or from a delete call. |
| JobController.RetentionBoundary | 02-core-controller/pkg/controller/JobController.go:78 | When the subtraction does not wrap, the retention rule is exactly `now - completion > retention`, a strict inequality. |
| JobController.RetentionMonotone | 02-core-controller/pkg/controller/JobController.go:78 | A job past its retention stays past it at any later time, as long as neither subtraction wraps. |
| JobController.DefaultRetentionScenario | 02-core-controller/pkg/controller/JobController.go:77-86 | With the default 864000 s retention and completion time T, nothing is deleted at T+864000-1 or at T+864000. At T+864000+1 the pods are deleted, then the job if the pod delete succeeded. |
| JobController.Enqueue | 02-core-controller/pkg/controller/JobController.go:51-59 | If key extraction fails, nothing is added. Otherwise exactly the extracted key is added. |
| JobController.HandleEvent | 02-core-controller/pkg/controller/JobController.go:36-46 | A delete event adds nothing. An update adds what an add of the new object would, whatever the old object is. At most one key is added, and it is the routed object's key. |
| JobController.QueueAdds | 02-core-controller/pkg/controller/JobController.go:36-59 | Over a stream of events there are at most as many adds as events. Every added key is the key of some add or update event in the stream. |
| JobController.QueueAddsAppend | 02-core-controller/pkg/controller/JobController.go:36-59 | The adds for two consecutive stretches of events are the first stretch's adds followed by the second's. |
| JobController.QueueAddsComplete | 02-core-controller/pkg/controller/JobController.go:36-59 | Every add or update whose key can be extracted puts that key on the queue. |
| JobController.QueueAddsMembership | 02-core-controller/pkg/controller/JobController.go:36-59 | A key is added iff some event in the stream is an add or an update whose (new) object has that key. |
| JobController.DeleteEventsIgnored | 02-core-controller/pkg/controller/JobController.go:43-45 | Inserting a delete event anywhere in a stream does not change the queue adds. |

## Left out

- The lease state machine (acquire, renew, release, the renewal watchdog, the leadership callbacks) belongs to client-go's `NewLeaderElector` and is not part of this model. So are `Election.Run` and `Election.IsLeader`, which only delegate to it. Elector construction is an input outcome.
- client-go validates the timing relation between the durations when the elector is built. `checkAndSetConfig` itself does not check it. The model therefore does not reject a config whose explicitly set durations are out of order. Such a config is rejected only through the elector-construction outcome. The model proves that the defaults are in order.
- The `Controller` type (`NewController`, the work queue with its deduplication and rate limiting, `Run` and the worker loop) is defined in a file that is not part of this model. Only the sequence of `queue.Add` calls is modelled.
- `cache.MetaNamespaceKeyFunc`, the lister, `DeleteCollection` and `Delete` are Kubernetes client calls. Each is represented by the outcome it reports. The lister's returned job is reduced to its completion time.
- `os.Hostname`, `uuid.NewUUID` and `time.Now` are environment, randomness and clock. They are parameters.
- The event broadcaster and recorder, and the user-agent decoration of the rest config, are recorded only as construction steps with their arguments.
- The `main.go` programs (flag parsing, signal handling, context cancellation, logging) are I/O plumbing. The only thing taken from them is the default retention of 864000 seconds.
- Log messages (`klog`, `utilruntime.HandleError`) are not modelled.
- The comment on `OnStoppedLeading` (election.go:67) says it is called when every member dies. The code passes the callback to client-go unchanged, so when it fires is client-go's behaviour and is not part of this model.
