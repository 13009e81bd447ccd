/** The repository's storage tests replayed on the model: each scenario builds
    fresh stores, cache, signal and task over an engine that keeps names as
    they are (standing for two file-system directories), drives the facade and the transfer task the
    way the test does, and its postcondition is what the test asserts. */
module StorageTests {
  import opened Base
  import opened UrlQuote
  import opened Utils
  import opened Services
  import opened Tasks
  import opened Backends
  import LegacyBackend

  /** An engine that stores every file under the name it is given. Unlike
      Django's `FileSystemStorage`, it never renames a name already in use: a
      second save of a name overwrites the file where Django would add a
      suffix. The first save of a name into an empty store is the same in both. */
  const Directory: Engine := Engine(
    (n: Name, used: set<string>) => n,
    (n: Name) => n,
    (n: Name) => n,
    (n: Name) => Some(n),
    (d: string, used: set<string>) => ([], []),
    (n: Name, k: TimeKind) => 0)

  /** The importable names the tests use, each mapped to a distinct token. */
  const TestRegistry: Registry<int> := map[
    BackendsModule := map["LocalStorage" := 0, "RemoteStorage" := 1],
    "queued_storage.tasks" := map["Transfer" := 2, "TransferAndDelete" := 3],
    "tests.tasks" := map["NoneReturningTransferTask" := 4, "RetryingTransferTask" := 5]]

  const BackendsModule: string := "tests.backends"
  const LocalPath: string := BackendsModule + "." + "LocalStorage"
  const RemotePath: string := BackendsModule + "." + "RemoteStorage"

  /** The settings of `QueuedStorage(LocalPath, RemotePath, task=..., delayed=...)`. */
  function TestSettings(taskModule: string, taskClass: string, delayed: bool): Settings {
    Settings(DottedPath(LocalPath), DottedPath(RemotePath), None, None, None, Some(delayed),
             DottedPath(taskModule + "." + taskClass))
  }

  /** The test storages and every task path the tests name are importable. */
  lemma TestPathsImport(taskModule: string, taskClass: string)
    requires taskModule in TestRegistry && taskClass in TestRegistry[taskModule]
    requires '.' !in taskClass
    ensures ImportAttribute(TestRegistry, Some(LocalPath), None) == Success(0)
    ensures ImportAttribute(TestRegistry, Some(RemotePath), None) == Success(1)
    ensures ImportAttribute(TestRegistry, Some(taskModule + "." + taskClass), None).Success?
  {
    ImportAttributeSplit(TestRegistry, BackendsModule, "LocalStorage", None);
    ImportAttributeSplit(TestRegistry, BackendsModule, "RemoteStorage", None);
    ImportAttributeSplit(TestRegistry, taskModule, taskClass, None);
  }

  /** `test_storage_init` and `test_storage_cache_key`: the test settings are
      accepted, with the prefix given or the default one. */
  lemma TestSettingsAccepted(taskModule: string, taskClass: string, delayed: bool, prefix: Option<string>)
    requires taskModule in TestRegistry && taskClass in TestRegistry[taskModule]
    requires '.' !in taskClass
    ensures var s := TestSettings(taskModule, taskClass, delayed).(cachePrefix := prefix);
            Configure(s, TestRegistry) ==
              Success(Config(LocalPath, map[], RemotePath, map[], taskModule + "." + taskClass, delayed,
                             prefix.GetOr(DefaultCachePrefix)))
  {
    TestPathsImport(taskModule, taskClass);
  }

  /** A descriptor built by the test facade names importable storages. */
  lemma TestDescriptorImports(d: Descriptor)
    requires d.localPath == LocalPath && d.remotePath == RemotePath
    ensures ImportError(TestRegistry, d) == None
  {
    TestPathsImport(BackendsModule, "LocalStorage");
  }

  /** A facade over two empty directories with the test settings, after
      `save(fileName, content)`, and a signal nobody has sent yet. */
  method SavedOnTestStorage(variant: Variant, taskModule: string, taskClass: string, delayed: bool,
                            fileName: Name, content: Bytes)
      returns (storage: QueuedStorage, signal: Signal)
    requires taskModule in TestRegistry && taskClass in TestRegistry[taskModule]
    requires '.' !in taskClass
    ensures fresh(storage) && fresh(storage.local) && fresh(storage.remote)
    ensures fresh(storage.cache) && fresh(storage.task) && fresh(signal)
    ensures storage.Valid() && signal.sent == []
    ensures storage.local.engine == Directory && storage.remote.engine == Directory
    ensures storage.local.files == map[fileName := content] && storage.remote.files == map[]
    ensures storage.cache.entries == map[storage.CacheKey(fileName) := false]
    ensures storage.task.variant == variant && storage.task.maxRetries == DefaultMaxRetries
    ensures storage.task.jobs ==
              if delayed then []
              else [Job(Descriptor(fileName, storage.CacheKey(fileName), LocalPath, RemotePath, map[], map[]), 0)]
    ensures storage.delayed == delayed && storage.result == if delayed then None else Some(0)
    ensures storage.localPath == LocalPath && storage.remotePath == RemotePath
    ensures storage.localOptions == map[] && storage.remoteOptions == map[]
  {
    TestSettingsAccepted(taskModule, taskClass, delayed, None);
    var cfg := Configure(TestSettings(taskModule, taskClass, delayed), TestRegistry).value;
    var local := new Store(Directory, map[]);
    var remote := new Store(Directory, map[]);
    var task := new TransferTask(variant);
    var cache := new Cache(map[]);
    storage := new QueuedStorage(cfg, local, remote, task, cache);
    signal := new Signal();
    var saved := storage.Save(fileName, content);
  }

  /** `test_storage_simple_local_save_then_transfer` (`deleting` false) and
      `..._then_transfer_and_delete` (`deleting` true): a delayed save stays
      local; after `transfer` and the transfer task's run the file is remote, the local
      copy is kept by `Transfer` and removed by `TransferAndDelete`, and the
      remote copy holds the saved content. */
  method DelayedSaveThenTransfer(deleting: bool, fileName: Name, content: Bytes)
      returns (localFirst: bool, remoteFirst: bool, queuedBySave: bool, completed: bool,
               localAfter: bool, remoteAfter: bool, keptLocal: bool, copied: bool)
    ensures localFirst && !remoteFirst && !queuedBySave && completed
    ensures !localAfter && remoteAfter && copied
    ensures keptLocal <==> !deleting
  {
    var variant := if deleting then TransferAndDelete else PlainTransfer;
    var taskClass := if deleting then "TransferAndDelete" else "Transfer";
    var storage, signal := SavedOnTestStorage(variant, "queued_storage.tasks", taskClass, true, fileName, content);
    var local, remote, cache, task := storage.local, storage.remote, storage.cache, storage.task;
    queuedBySave := task.jobs != [];
    localFirst := storage.UsingLocal(fileName);
    remoteFirst := storage.UsingRemote(fileName);
    var handle := storage.Transfer(fileName, None);
    var job := task.jobs[handle];
    TestDescriptorImports(job.desc);
    assert TransferOutcome(variant, fileName, local.files, false, ReturnedOther) == ReturnedTrue;
    var r := task.Run(job, TestRegistry, local, remote, cache, signal, false, ReturnedOther);
    completed := r == Completed;
    assert cache.Get(storage.CacheKey(fileName)) == Some(true);
    localAfter := storage.UsingLocal(fileName);
    remoteAfter := storage.UsingRemote(fileName);
    keptLocal := local.Exists(fileName);
    copied := remote.Open(fileName, "rb") == Success(content);
  }

  /** `test_storage_simple_local_save_then_transfer` as written: `run`
      rebuilds `LocalStorage()` and `RemoteStorage()` from the descriptor, and
      with no `location` option each instance gets a fresh temporary directory
      of its own. The worker's local store then lacks the saved file, so the
      transfer returns False and the run asks for a retry; the facade still
      resolves the file to local and its remote directory stays empty. */
  method WorkerOwnDirectories(fileName: Name, content: Bytes)
      returns (retried: bool, stillLocal: bool, notCopied: bool)
    ensures retried && stillLocal && notCopied
  {
    var storage, signal := SavedOnTestStorage(PlainTransfer, "queued_storage.tasks", "Transfer", true, fileName, content);
    var task, cache := storage.task, storage.cache;
    var handle := storage.Transfer(fileName, None);
    var job := task.jobs[handle];
    TestDescriptorImports(job.desc);
    var workerLocal := new Store(Directory, map[]);
    var workerRemote := new Store(Directory, map[]);
    var r := task.Run(job, TestRegistry, workerLocal, workerRemote, cache, signal, false, ReturnedOther);
    retried := r.RetryScheduled?;
    notCopied := !storage.remote.Exists(fileName);
    stillLocal := storage.UsingLocal(fileName);
  }

  /** A non-delayed save on the test storage followed by the run of the job it
      enqueued: the run completes, the file is copied under its own name, the
      local copy is kept or (for `TransferAndDelete`) removed, and the key is
      marked true. */
  method CelerySaved(deleting: bool, fileName: Name, content: Bytes)
      returns (storage: QueuedStorage, signal: Signal, r: RunResult)
    ensures fresh(storage) && fresh(storage.local) && fresh(storage.remote)
    ensures fresh(storage.cache) && fresh(storage.task) && fresh(signal)
    ensures storage.Valid() && r == Completed && storage.result == Some(0) && |storage.task.jobs| == 1
    ensures storage.task.variant == (if deleting then TransferAndDelete else PlainTransfer)
    ensures storage.task.maxRetries == DefaultMaxRetries
    ensures storage.localPath == LocalPath && storage.remotePath == RemotePath
    ensures (fileName in storage.local.files) <==> !deleting
    ensures fileName in storage.remote.files && storage.remote.files[fileName] == content
    ensures storage.cache.Get(storage.CacheKey(fileName)) == Some(true)
  {
    var variant := if deleting then TransferAndDelete else PlainTransfer;
    var taskClass := if deleting then "TransferAndDelete" else "Transfer";
    storage, signal := SavedOnTestStorage(variant, "queued_storage.tasks", taskClass, false, fileName, content);
    var local, remote, cache, task := storage.local, storage.remote, storage.cache, storage.task;
    TestDescriptorImports(task.jobs[0].desc);
    assert TransferOutcome(variant, fileName, local.files, false, ReturnedOther) == ReturnedTrue;
    r := task.Run(task.jobs[0], TestRegistry, local, remote, cache, signal, false, ReturnedOther);
  }

  /** `test_storage_celery_save` (`deleting` false) and
      `test_storage_celery_save_with_delete` (`deleting` true): a non-delayed
      save enqueues the transfer at once and its run moves the file remote; a
      second `transfer` leaves it remote (with `TransferAndDelete` the local
      copy is gone, so that run asks for a retry). */
  method CelerySave(deleting: bool, fileName: Name, content: Bytes)
      returns (completed: bool, localFirst: bool, remoteFirst: bool,
               localAgain: bool, remoteAgain: bool, secondRetried: bool)
    ensures completed && !localFirst && remoteFirst
    ensures !localAgain && remoteAgain
    ensures secondRetried <==> deleting
  {
    var storage, signal, r := CelerySaved(deleting, fileName, content);
    var local, remote, cache, task := storage.local, storage.remote, storage.cache, storage.task;
    completed := r == Completed;
    localFirst := storage.UsingLocal(fileName);
    remoteFirst := storage.UsingRemote(fileName);
    var handle := storage.Transfer(fileName, None);
    var job := task.jobs[handle];
    TestDescriptorImports(job.desc);
    var r2 := task.Run(job, TestRegistry, local, remote, cache, signal, false, ReturnedOther);
    secondRetried := r2.RetryScheduled?;
    assert cache.Get(storage.CacheKey(fileName)) == Some(true);
    localAgain := storage.UsingLocal(fileName);
    remoteAgain := storage.UsingRemote(fileName);
  }

  /** `test_transfer_returns_boolean`: a task whose `transfer` returns `None`
      makes the run raise `ValueError`; the file stays local, no retry is
      enqueued and no signal is sent. */
  method TransferReturnsBoolean(fileName: Name, content: Bytes)
      returns (raisedValueError: bool, stillLocal: bool, noRetry: bool, noSignal: bool)
    ensures raisedValueError && stillLocal && noRetry && noSignal
  {
    var storage, signal := SavedOnTestStorage(Overriding, "tests.tasks", "NoneReturningTransferTask", false, fileName, content);
    var task := storage.task;
    TestDescriptorImports(task.jobs[0].desc);
    var r := task.Run(task.jobs[0], TestRegistry, storage.local, storage.remote, storage.cache, signal, false, ReturnedOther);
    raisedValueError := r == Raised(NotBooleanResult);
    noRetry := |task.jobs| == 1;
    noSignal := signal.sent == [];
    stillLocal := storage.UsingLocal(fileName);
  }

  /** `test_transfer_retried`: a task whose `transfer` returns `False` once and
      then `True` is retried exactly once, with the same descriptor, and the
      retry completes the transfer. */
  method TransferRetried(fileName: Name, content: Bytes)
      returns (firstRetried: bool, sameDescriptor: bool, secondCompleted: bool, oneRetry: bool, remoteAfter: bool)
    ensures firstRetried && sameDescriptor && secondCompleted && oneRetry && remoteAfter
  {
    var storage, signal := SavedOnTestStorage(Overriding, "tests.tasks", "RetryingTransferTask", false, fileName, content);
    var task := storage.task;
    var first := task.jobs[0];
    TestDescriptorImports(first.desc);
    var r1 := task.Run(first, TestRegistry, storage.local, storage.remote, storage.cache, signal, false, ReturnedFalse);
    firstRetried := r1.RetryScheduled? && |task.jobs| == 2;
    sameDescriptor := firstRetried && task.jobs[1] == Job(first.desc, 1);
    var r2 := task.Run(task.jobs[1], TestRegistry, storage.local, storage.remote, storage.cache, signal, false, ReturnedTrue);
    secondCompleted := r2 == Completed;
    oneRetry := |task.jobs| == 2;
    remoteAfter := storage.UsingRemote(fileName);
  }

  /** The transfer task `test_storage_simple_save` hands to the legacy facade:
      it builds both instances and saves the local file on the remote store
      twice. */
  method LegacyTestTask(job: LegacyBackend.LegacyJob, local: Store, remote: Store) returns (r: Result<Name, StorageError>)
    requires local != remote
    modifies remote
    ensures job.name !in old(local.files) ==> r == Failure(FileNotFound(job.name)) && remote.files == old(remote.files)
    ensures job.name in old(local.files) ==>
              var first := old(remote.AvailableName(job.name));
              var second := remote.engine.availableName(job.name, old(remote.files).Keys + {first});
              r == Success(second) &&
              remote.files == old(remote.files)[first := old(local.files)[job.name]][second := old(local.files)[job.name]]
  {
    var content := local.Open(job.name, "rb");
    if content.Failure? {
      return Failure(content.error);
    }
    var first := remote.Save(job.name, content.value);
    assert remote.files.Keys == old(remote.files).Keys + {first};
    var again := local.Open(job.name, "rb");
    var second := remote.Save(job.name, again.value);
    r := Success(second);
  }

  /** `test_storage_simple_save` on the legacy facade: the save builds only the
      local instance, enqueues the eight values keyed by the saved name, and
      the test task leaves the file in both directories. */
  method LegacySimpleSave(fileName: Name, content: Bytes)
      returns (remoteNotBuilt: bool, keyedBySavedName: bool, inLocal: bool, inRemote: bool)
    ensures remoteNotBuilt && keyedBySavedName && inLocal && inRemote
  {
    var local := new Store(Directory, map[]);
    var remote := new Store(Directory, map[]);
    var queue := new LegacyBackend.LegacyQueue();
    var cache := new Cache(map[]);
    var settings := LegacyBackend.DefaultSettings(LegacyBackend.FileSystemStorageClass, LegacyBackend.FileSystemStorageClass);
    var storage := new LegacyBackend.QueuedRemoteStorage(settings, false, queue, cache, local, remote);
    var saved := storage.Save(fileName, content);
    remoteNotBuilt := storage.remoteInstance == null;
    keyedBySavedName := |queue.jobs| == 1 && queue.jobs[0].cacheKey == LegacyBackend.LegacyCachePrefix + Quote(saved);
    var r := LegacyTestTask(queue.jobs[0], local, remote);
    inLocal := local.Exists(saved);
    inRemote := remote.Exists(saved);
  }
}
