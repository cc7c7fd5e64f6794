/** The job-retention controller (pkg/controller/JobController.go): the
    reconcile decision for one job key, the ordered deletes it issues, and
    how informer events turn into work-queue additions.

    The lister, the API client and the key function are client-go's; each
    call is represented by the outcome it reports. The work queue itself
    (deduplication, rate limiting) is not part of this model: only the
    sequence of `queue.Add` calls is. */
module JobController {
  import opened Common

  /** Default retention: ten days, in seconds (the `--retention` flag). */
  const DefaultRetentionSeconds: Int64 := 864000

  /** Label that the Job controller puts on the pods it creates. */
  const JobNameLabel: string := "job-name"

  /** The true difference `now - completion` fits in an `int64`, so Go's
      subtraction does not wrap. */
  predicate NoWrap(now: Int64, completion: Int64) {
    MinInt64 <= now - completion <= MaxInt64
  }

  /** An API error; only the not-found reason is told apart (`errors.IsNotFound`). */
  datatype ApiError = NotFoundError(message: string) | OtherError(message: string)

  /** The part of a Job the decision reads: its optional completion time in
      Unix seconds. */
  datatype Job = Job(completionTime: Option<Int64>)

  /** The delete calls the controller makes. */
  datatype DeleteAction =
    | DeletePods(namespace: string, labelSelector: string)  // DeleteCollection
    | DeleteJob(namespace: string, name: string)

  /** The outcomes the API server reports for the two deletes. */
  datatype ClientEnv = ClientEnv(deletePods: Outcome<ApiError>, deleteJob: Outcome<ApiError>)

  /** The deletes attempted, in order, and the error returned. */
  datatype Reconcile = Reconcile(actions: seq<DeleteAction>, result: Outcome<ApiError>)

  // ---------------------------------------------------------------------
  // deleteJobAndPods

  /** The label selector of the pods that belong to the job `name`. */
  function PodSelector(name: string): (s: string)
    ensures |s| == |JobNameLabel| + 1 + |name|
    ensures s[..|JobNameLabel|] == JobNameLabel && s[|JobNameLabel|] == '='
    ensures s[|JobNameLabel| + 1..] == name
  {
    JobNameLabel + "=" + name
  }

  /** Distinct jobs never share a pod selector. */
  lemma PodSelectorInjective(a: string, b: string)
    requires PodSelector(a) == PodSelector(b)
    ensures a == b
  {
  }

  /** `deleteJobAndPods`: the job's pods first; the job only if that worked. */
  function DeleteJobAndPods(namespace: string, name: string, client: ClientEnv): (r: Reconcile)
    ensures |r.actions| >= 1 && r.actions[0] == DeletePods(namespace, PodSelector(name))
    ensures DeleteJob(namespace, name) in r.actions <==> client.deletePods.Pass?
    ensures client.deletePods.Fail? ==> r.actions == [DeletePods(namespace, PodSelector(name))] && r.result == client.deletePods
    ensures client.deletePods.Pass? ==> |r.actions| == 2 && r.actions[1] == DeleteJob(namespace, name) && r.result == client.deleteJob
    ensures r.result.Pass? <==> client.deletePods.Pass? && client.deleteJob.Pass?
  {
    var pods := DeletePods(namespace, PodSelector(name));
    if client.deletePods.Fail? then
      Reconcile([pods], client.deletePods)
    else
      Reconcile([pods, DeleteJob(namespace, name)], client.deleteJob)
  }

  // ---------------------------------------------------------------------
  // handleJob

  /** `time.Now().Unix() - completion.Unix()`, an `int64` subtraction. */
  function Elapsed(now: Int64, completion: Int64): (d: Int64)
    ensures NoWrap(now, completion) ==> d == now - completion
    ensures (now - completion - d) % TwoTo64 == 0
  {
    Wrap64(now - completion)
  }

  /** The retention rule: strictly more than `retention` seconds have passed. */
  predicate RetentionExceeded(now: Int64, completion: Int64, retention: Int64) {
    Elapsed(now, completion) > retention
  }

  /** `handleJob`: look the job up; a vanished job and an unfinished job need
      nothing; a finished job past its retention is deleted with its pods. */
  function HandleJob(namespace: string, name: string, lookup: Result<Job, ApiError>,
                     now: Int64, retention: Int64, client: ClientEnv): (r: Reconcile)
    ensures lookup.Failure? && lookup.error.NotFoundError? ==> r == Reconcile([], Pass)
    ensures lookup.Failure? && lookup.error.OtherError? ==> r == Reconcile([], Fail(lookup.error))
    ensures lookup.Success? && lookup.value.completionTime.None? ==> r == Reconcile([], Pass)
    // a delete is attempted exactly when a found, finished job is past retention
    ensures r.actions != [] <==>
              && lookup.Success?
              && lookup.value.completionTime.Some?
              && RetentionExceeded(now, lookup.value.completionTime.value, retention)
    ensures r.actions != [] ==> r == DeleteJobAndPods(namespace, name, client)
    // every error returned comes from the lister (not a not-found) or a delete call
    ensures r.result.Fail? ==>
              (lookup.Failure? && r.result.error == lookup.error && lookup.error.OtherError?)
              || (r.actions != [] && (r.result == client.deletePods || r.result == client.deleteJob))
  {
    match lookup
    case Failure(err) =>
      if err.NotFoundError? then Reconcile([], Pass) else Reconcile([], Fail(err))
    case Success(job) =>
      match job.completionTime
      case None => Reconcile([], Pass)
      case Some(done) =>
        if RetentionExceeded(now, done, retention) then
          var d := DeleteJobAndPods(namespace, name, client);
          if d.result.Fail? then d else Reconcile(d.actions, Pass)
        else
          Reconcile([], Pass)
  }

  /** When the subtraction does not wrap, the rule is the plain strict
      inequality. */
  lemma RetentionBoundary(now: Int64, completion: Int64, retention: Int64)
    requires NoWrap(now, completion)
    ensures RetentionExceeded(now, completion, retention) <==> now - completion > retention
  {
  }

  /** Once a finished job is past its retention it stays past it as time
      moves on. */
  lemma RetentionMonotone(now: Int64, later: Int64, completion: Int64, retention: Int64)
    requires NoWrap(now, completion) && NoWrap(later, completion)
    requires now <= later
    requires RetentionExceeded(now, completion, retention)
    ensures RetentionExceeded(later, completion, retention)
  {
  }

  /** The boundary with the default retention: one second short of it and
      exactly at it nothing is deleted; one second past it the pods and then
      the job are deleted. */
  lemma DefaultRetentionScenario(namespace: string, name: string, t: Int64, client: ClientEnv)
    requires t + DefaultRetentionSeconds + 1 <= MaxInt64
    ensures var job := Success(Job(Some(t)));
            && HandleJob(namespace, name, job, t + DefaultRetentionSeconds - 1, DefaultRetentionSeconds, client).actions == []
            && HandleJob(namespace, name, job, t + DefaultRetentionSeconds, DefaultRetentionSeconds, client).actions == []
            && HandleJob(namespace, name, job, t + DefaultRetentionSeconds + 1, DefaultRetentionSeconds, client).actions
               == (if client.deletePods.Pass?
                   then [DeletePods(namespace, "job-name=" + name), DeleteJob(namespace, name)]
                   else [DeletePods(namespace, "job-name=" + name)])
  {
    var r := DefaultRetentionSeconds;
    RetentionBoundary(t + r - 1, t, r);
    RetentionBoundary(t + r, t, r);
    RetentionBoundary(t + r + 1, t, r);
    assert PodSelector(name) == "job-name=" + name;
  }

  // ---------------------------------------------------------------------
  // enqueue and the informer event handlers

  /** An object as delivered by the informer, with the outcome of
      `cache.MetaNamespaceKeyFunc` on it (a `namespace/name` key, or an error
      for an object without metadata). */
  datatype Obj = Obj(key: Result<string, string>)

  datatype Event = Added(obj: Obj) | Updated(oldObj: Obj, newObj: Obj) | Deleted(obj: Obj)

  /** `enqueue`: the `queue.Add` calls made for one object. */
  function Enqueue(obj: Obj): (adds: seq<string>)
    ensures |adds| <= 1
    ensures adds == [] <==> obj.key.Failure?
    ensures adds != [] ==> adds[0] == obj.key.value
  {
    match obj.key
    case Failure(_) => []
    case Success(k) => [k]
  }

  /** The object whose key an event's handler enqueues, if any: the added
      object, the new version of an updated object, and nothing on delete. */
  function Routed(e: Event): Option<Obj> {
    match e
    case Added(o) => Some(o)
    case Updated(_, n) => Some(n)
    case Deleted(_) => None
  }

  /** The registered handler for one event. */
  function HandleEvent(e: Event): (adds: seq<string>)
    ensures e.Deleted? ==> adds == []
    ensures e.Updated? ==> adds == Enqueue(e.newObj)
    ensures |adds| <= 1
    ensures adds != [] <==> Routed(e).Some? && Routed(e).value.key.Success?
    ensures adds != [] ==> adds[0] == Routed(e).value.key.value
  {
    match e
    case Added(o) => Enqueue(o)
    case Updated(_, n) => Enqueue(n)
    case Deleted(_) => []
  }

  /** Whether event `e` leads to `key` being added to the queue. */
  predicate AddsKey(e: Event, key: string) {
    Routed(e).Some? && Routed(e).value.key == Success(key)
  }

  /** The `queue.Add` calls made for a stream of events, in delivery order. */
  function QueueAdds(events: seq<Event>): (adds: seq<string>)
    ensures |adds| <= |events|
    ensures forall k :: k in adds ==> exists i :: 0 <= i < |events| && AddsKey(events[i], k)
  {
    if events == [] then []
    else
      var rest := QueueAdds(events[1..]);
      assert forall k :: k in rest ==> exists i :: 0 <= i < |events| && AddsKey(events[i], k) by {
        forall k | k in rest
          ensures exists i :: 0 <= i < |events| && AddsKey(events[i], k)
        {
          var j :| 0 <= j < |events[1..]| && AddsKey(events[1..][j], k);
          assert AddsKey(events[j + 1], k);
        }
      }
      HandleEvent(events[0]) + rest
  }

  /** Handling two stretches of events one after the other adds what each
      stretch adds, in order. */
  lemma {:induction false} QueueAddsAppend(a: seq<Event>, b: seq<Event>)
    ensures QueueAdds(a + b) == QueueAdds(a) + QueueAdds(b)
  {
    if a == [] {
      assert a + b == b;
    } else {
      assert (a + b)[1..] == a[1..] + b;
      QueueAddsAppend(a[1..], b);
    }
  }

  /** Every add or update whose key can be extracted reaches the queue. */
  lemma {:induction false} QueueAddsComplete(events: seq<Event>, i: nat)
    requires i < |events|
    requires Routed(events[i]).Some? && Routed(events[i]).value.key.Success?
    ensures Routed(events[i]).value.key.value in QueueAdds(events)
  {
    if i > 0 {
      QueueAddsComplete(events[1..], i - 1);
    }
  }

  /** Together: a key is added iff some event in the stream adds it. */
  lemma {:induction false} QueueAddsMembership(events: seq<Event>, key: string)
    ensures key in QueueAdds(events) <==> exists i :: 0 <= i < |events| && AddsKey(events[i], key)
  {
    if exists i :: 0 <= i < |events| && AddsKey(events[i], key) {
      var i :| 0 <= i < |events| && AddsKey(events[i], key);
      QueueAddsComplete(events, i);
    }
  }

  /** A delete event anywhere in the stream changes nothing about the queue. */
  lemma {:induction false} DeleteEventsIgnored(a: seq<Event>, obj: Obj, b: seq<Event>)
    ensures QueueAdds(a + [Deleted(obj)] + b) == QueueAdds(a + b)
  {
    var d := [Deleted(obj)];
    assert QueueAdds(d) == [] by {
      assert d[1..] == [];
    }
    QueueAddsAppend(a, d);
    assert QueueAdds(a + d) == QueueAdds(a);
    QueueAddsAppend(a + d, b);
    QueueAddsAppend(a, b);
  }
}
