/** The transfer task (`queued_storage.tasks`): `Transfer.run` rebuilds the two
    stores from a descriptor, calls `transfer`, and on `True` marks the cache
    key remote and sends the "transferred" signal, on `False` asks Celery to
    retry the same descriptor, and on anything else raises `ValueError`.
    `TransferAndDelete` deletes the local copy after a successful transfer.
    Celery itself is a log of enqueued jobs on the task class's object and the
    `request.retries` counter carried by each job. */
module Tasks {
  import opened Base
  import opened Services
  import opened Utils

  /** QUEUED_STORAGE_RETRIES and QUEUED_STORAGE_RETRY_DELAY (seconds). */
  const DefaultMaxRetries: nat := 5
  const DefaultRetryDelay: nat := 60

  /** The six serialisable arguments of `run`. */
  datatype Descriptor = Descriptor(
    name: Name,
    cacheKey: string,
    localPath: string,
    remotePath: string,
    localOptions: Options,
    remoteOptions: Options)

  /** One execution request: the descriptor and Celery's `request.retries`. */
  datatype Job = Job(desc: Descriptor, retries: nat)

  /** What a `transfer` implementation returned: `True`, `False`, or any other
      value (a subclass may return `None`). */
  datatype Outcome = ReturnedTrue | ReturnedFalse | ReturnedOther

  /** Which `transfer` the transfer task class runs: the base one, the deleting one, or
      a subclass's own (external code whose answer is given per run). */
  datatype Variant = PlainTransfer | TransferAndDelete | Overriding

  /** How `run` ends: it returns `True`, or Celery's `retry` raises `Retry`
      after scheduling the next job, or an exception propagates. */
  datatype RunResult = Completed | RetryScheduled(next: Job) | Raised(error: PyError)

  /** The `file_transferred` signal's payload. */
  datatype Transferred = Transferred(sender: Variant, name: Name, local: Store, remote: Store)

  /** Receivers of the signal see the sequence of sends. */
  class Signal {
    var sent: seq<Transferred>

    constructor ()
      ensures sent == []
    {
      sent := [];
    }

    method Send(event: Transferred)
      modifies this
      ensures sent == old(sent) + [event]
    {
      sent := sent + [event];
    }
  }

  /** Celery's `retry` rule: a job that has been retried `retries` times may be
      retried again, as retry number `retries + 1`, only while fewer than
      `maxRetries` retries have happened. */
  function NextRetry(retries: nat, maxRetries: nat): (r: Option<nat>)
    ensures r.Some? <==> retries < maxRetries
    ensures r.Some? ==> r.value == retries + 1 && r.value <= maxRetries
  {
    if retries < maxRetries then Some(retries + 1) else None
  }

  /** `Transfer.transfer`: true iff opening the local file and saving it on
      the remote store both succeed; `remoteFails` stands for an engine error
      raised by the remote save. */
  function BaseSucceeds(name: Name, localFiles: map<string, Bytes>, remoteFails: bool): bool {
    name in localFiles && !remoteFails
  }

  /** What the variant's `transfer` returns. */
  function TransferOutcome(variant: Variant, name: Name, localFiles: map<string, Bytes>, remoteFails: bool, overridden: Outcome): Outcome {
    if variant == Overriding then overridden
    else if BaseSucceeds(name, localFiles, remoteFails) then ReturnedTrue
    else ReturnedFalse
  }

  /** Local files after the variant's `transfer`. */
  function LocalAfter(variant: Variant, name: Name, localFiles: map<string, Bytes>, remoteFails: bool): map<string, Bytes> {
    if variant == TransferAndDelete && BaseSucceeds(name, localFiles, remoteFails) then localFiles - {name}
    else localFiles
  }

  /** Remote files after the variant's `transfer`: on success the local
      content is saved under the name the remote engine picks for `name`. */
  function RemoteAfter(variant: Variant, name: Name, localFiles: map<string, Bytes>, remoteFiles: map<string, Bytes>,
                       remoteEngine: Engine, remoteFails: bool): map<string, Bytes> {
    if variant != Overriding && BaseSucceeds(name, localFiles, remoteFails) then
      remoteFiles[remoteEngine.availableName(name, remoteFiles.Keys) := localFiles[name]]
    else remoteFiles
  }

  /** The error `run` raises while importing the two storage classes, if any. */
  function ImportError<V>(registry: Registry<V>, desc: Descriptor): Option<PyError> {
    var l := ImportAttribute(registry, Some(desc.localPath), None);
    var r := ImportAttribute(registry, Some(desc.remotePath), None);
    if l.Failure? then Some(l.error) else if r.Failure? then Some(r.error) else None
  }

  /** Number of runs a chain of retries makes when the i-th run's `transfer`
      returns `outcomes[i]`, starting from a job retried `retries` times. */
  function ChainRuns(retries: nat, maxRetries: nat, outcomes: seq<Outcome>): (runs: nat)
    requires retries <= maxRetries
    ensures runs <= |outcomes|
    ensures runs <= maxRetries - retries + 1
    ensures outcomes != [] ==> runs >= 1
    decreases |outcomes|
  {
    if outcomes == [] then 0
    else if outcomes[0] != ReturnedFalse then 1
    else match NextRetry(retries, maxRetries)
      case None => 1
      case Some(next) => 1 + ChainRuns(next, maxRetries, outcomes[1..])
  }

  /** A chain that keeps failing makes exactly `maxRetries + 1` runs, and the
      last one gives up. */
  lemma {:induction false} PersistentFailureExhausts(retries: nat, maxRetries: nat, outcomes: seq<Outcome>)
    requires retries <= maxRetries
    requires |outcomes| > maxRetries - retries
    requires forall i | 0 <= i < |outcomes| :: outcomes[i] == ReturnedFalse
    ensures ChainRuns(retries, maxRetries, outcomes) == maxRetries - retries + 1
    decreases maxRetries - retries
  {
    if retries < maxRetries {
      PersistentFailureExhausts(retries + 1, maxRetries, outcomes[1..]);
    }
  }

  /** A transfer that fails once and then succeeds runs twice: one retry. */
  lemma FailOnceThenSucceed(maxRetries: nat)
    requires maxRetries >= 1
    ensures ChainRuns(0, maxRetries, [ReturnedFalse, ReturnedTrue]) == 2
  {
    assert [ReturnedFalse, ReturnedTrue][1..] == [ReturnedTrue];
  }

  /** `TransferAndDelete` removes the local copy exactly when the base
      transfer succeeded, and keeps the local files otherwise. */
  lemma DeleteOnlyAfterSuccess(name: Name, localFiles: map<string, Bytes>, remoteFails: bool)
    ensures name in LocalAfter(TransferAndDelete, name, localFiles, remoteFails) <==>
              name in localFiles && TransferOutcome(TransferAndDelete, name, localFiles, remoteFails, ReturnedOther) != ReturnedTrue
    ensures TransferOutcome(TransferAndDelete, name, localFiles, remoteFails, ReturnedOther) == ReturnedFalse ==>
              LocalAfter(TransferAndDelete, name, localFiles, remoteFails) == localFiles
  {
  }

  /** A successful plain transfer keeps the local copy, and a remote engine
      that keeps free names stores the content under the same name. */
  lemma PlainTransferCopies(name: Name, localFiles: map<string, Bytes>, remoteFiles: map<string, Bytes>, e: Engine)
    requires KeepsFreeNames(e)
    requires name in localFiles && name !in remoteFiles
    ensures TransferOutcome(PlainTransfer, name, localFiles, false, ReturnedOther) == ReturnedTrue
    ensures LocalAfter(PlainTransfer, name, localFiles, false) == localFiles
    ensures name in RemoteAfter(PlainTransfer, name, localFiles, remoteFiles, e, false)
    ensures RemoteAfter(PlainTransfer, name, localFiles, remoteFiles, e, false)[name] == localFiles[name]
  {
    assert e.availableName(name, remoteFiles.Keys) == name;
  }

  /** A task class with the Celery task queue it feeds. */
  class TransferTask {
    const variant: Variant
    const maxRetries: nat
    const retryDelay: nat
    /** Every job `delay` or `retry` has enqueued, in order. */
    var jobs: seq<Job>

    constructor (variant: Variant)
      ensures this.variant == variant && jobs == []
      ensures maxRetries == DefaultMaxRetries && retryDelay == DefaultRetryDelay
    {
      this.variant := variant;
      maxRetries := DefaultMaxRetries;
      retryDelay := DefaultRetryDelay;
      jobs := [];
    }

    /** `task.delay(*descriptor)`: a first execution request. */
    method Delay(desc: Descriptor) returns (handle: nat)
      modifies this
      ensures jobs == old(jobs) + [Job(desc, 0)]
      ensures handle == |old(jobs)| && jobs[handle] == Job(desc, 0)
    {
      handle := |jobs|;
      jobs := jobs + [Job(desc, 0)];
    }

    /** `Transfer.transfer`: copy the local file to the remote store; any
        error while opening or saving makes it return false. */
    method BaseTransfer(name: Name, local: Store, remote: Store, remoteFails: bool) returns (ok: bool)
      requires local != remote
      modifies remote
      ensures ok == BaseSucceeds(name, old(local.files), remoteFails)
      ensures remote.files == RemoteAfter(PlainTransfer, name, old(local.files), old(remote.files), remote.engine, remoteFails)
    {
      var content := local.Open(name, "rb");
      if content.Failure? || remoteFails {
        return false;
      }
      var _ := remote.Save(name, content.value);
      return true;
    }

    /** The variant's `transfer`. `overridden` is what a subclass's own
        `transfer` returns; it is read only for `Overriding`. */
    method Transfer(name: Name, local: Store, remote: Store, remoteFails: bool, overridden: Outcome) returns (r: Outcome)
      requires local != remote
      modifies local, remote
      ensures r == TransferOutcome(variant, name, old(local.files), remoteFails, overridden)
      ensures local.files == LocalAfter(variant, name, old(local.files), remoteFails)
      ensures remote.files == RemoteAfter(variant, name, old(local.files), old(remote.files), remote.engine, remoteFails)
    {
      match variant
      case Overriding =>
        r := overridden;
      case PlainTransfer =>
        var ok := BaseTransfer(name, local, remote, remoteFails);
        r := if ok then ReturnedTrue else ReturnedFalse;
      case TransferAndDelete =>
        var ok := BaseTransfer(name, local, remote, remoteFails);
        if ok {
          local.Delete(name);
        }
        r := if ok then ReturnedTrue else ReturnedFalse;
    }

    /** `Transfer.run`. `local` and `remote` are the instances built from the
        descriptor's classes and options. */
    method Run<V>(job: Job, registry: Registry<V>, local: Store, remote: Store, cache: Cache, signal: Signal,
                  remoteFails: bool, overridden: Outcome) returns (r: RunResult)
      requires local != remote
      modifies this, local, remote, cache, signal
      // the storage classes cannot be imported: the error propagates, nothing changes
      ensures ImportError(registry, job.desc).Some? ==>
                r == Raised(ImportError(registry, job.desc).value) && jobs == old(jobs) &&
                local.files == old(local.files) && remote.files == old(remote.files) &&
                cache.entries == old(cache.entries) && signal.sent == old(signal.sent)
      ensures ImportError(registry, job.desc).None? ==>
                var d := job.desc;
                var o := TransferOutcome(variant, d.name, old(local.files), remoteFails, overridden);
                && local.files == LocalAfter(variant, d.name, old(local.files), remoteFails)
                && remote.files == RemoteAfter(variant, d.name, old(local.files), old(remote.files), remote.engine, remoteFails)
                // True: the key is marked remote and one signal is sent
                && (o == ReturnedTrue ==>
                      r == Completed && jobs == old(jobs) &&
                      cache.entries == old(cache.entries)[d.cacheKey := true] &&
                      signal.sent == old(signal.sent) + [Transferred(variant, d.name, local, remote)])
                // False: the identical descriptor is retried while retries remain
                && (o == ReturnedFalse ==>
                      cache.entries == old(cache.entries) && signal.sent == old(signal.sent) &&
                      (job.retries < maxRetries ==>
                         r == RetryScheduled(Job(d, job.retries + 1)) && jobs == old(jobs) + [Job(d, job.retries + 1)]) &&
                      (job.retries >= maxRetries ==> r == Raised(MaxRetriesExceeded) && jobs == old(jobs)))
                // anything else: ValueError, no cache write, no retry, no signal
                && (o == ReturnedOther ==>
                      r == Raised(NotBooleanResult) && jobs == old(jobs) &&
                      cache.entries == old(cache.entries) && signal.sent == old(signal.sent))
      // a run never turns a true cache entry back to false
      ensures forall k | k in old(cache.entries) && old(cache.entries)[k] :: k in cache.entries && cache.entries[k]
    {
      var importError := ImportError(registry, job.desc);
      if importError.Some? {
        return Raised(importError.value);
      }
      var d := job.desc;
      var result := Transfer(d.name, local, remote, remoteFails, overridden);
      match result
      case ReturnedTrue =>
        cache.Set(d.cacheKey, true);
        signal.Send(Transferred(variant, d.name, local, remote));
        r := Completed;
      case ReturnedFalse =>
        match NextRetry(job.retries, maxRetries) {
          case Some(next) =>
            var retry := Job(d, next);
            jobs := jobs + [retry];
            r := RetryScheduled(retry);
          case None =>
            r := Raised(MaxRetriesExceeded);
        }
      case ReturnedOther =>
        r := Raised(NotBooleanResult);
    }

    /** Celery executing `job` and then every retry the runs enqueue, where the
        i-th run's own `transfer` returns `outcomes[i]`; it stops at the first
        run that does not ask for a retry or when the outcomes run out. The
        number of runs is the one `ChainRuns` counts. */
    method RunChain<V>(job: Job, registry: Registry<V>, local: Store, remote: Store, cache: Cache, signal: Signal,
                       outcomes: seq<Outcome>) returns (runs: nat)
      requires variant == Overriding && local != remote
      requires job.retries <= maxRetries && ImportError(registry, job.desc).None?
      modifies this, local, remote, cache, signal
      ensures runs == ChainRuns(job.retries, maxRetries, outcomes)
      ensures runs <= maxRetries - job.retries + 1
    {
      runs := 0;
      var current := job;
      var going := true;
      while going && runs < |outcomes|
        invariant runs <= |outcomes|
        invariant current.desc == job.desc && current.retries <= maxRetries
        invariant going ==> runs + ChainRuns(current.retries, maxRetries, outcomes[runs..]) == ChainRuns(job.retries, maxRetries, outcomes)
        invariant !going ==> runs == ChainRuns(job.retries, maxRetries, outcomes)
        decreases |outcomes| - runs, going
      {
        var r := Run(current, registry, local, remote, cache, signal, false, outcomes[runs]);
        assert outcomes[runs..][1..] == outcomes[runs + 1..];
        if r.RetryScheduled? {
          current := r.next;
        } else {
          going := false;
        }
        runs := runs + 1;
      }
    }
  }
}
