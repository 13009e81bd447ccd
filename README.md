# django-queued-storage in Dafny

django-queued-storage is a Django storage proxy. A file is written to a local
store at once, and a Celery task copies it to a remote store later. A shared
cache records, per file name, which store holds the authoritative copy. The
model covers four parts:
- the `QueuedStorage` facade (`queued_storage/backends.py`);
- the transfer task `Transfer` and its `TransferAndDelete` variant
  (`queued_storage/tasks.py`);
- the older `QueuedRemoteStorage` and `DelayedStorage` facade
  (`queued_storage/backend.py`);
- the dotted-path loader `import_attribute` (`queued_storage/utils.py`).

Modules, one file each:

- `Base` (`base.dfy`): options, results, the Python exceptions the core
  raises, and file names. A name is a Python 2 byte string: every character
  is below 256.
- `UrlQuote` (`quote.dfy`): Python 2 `urllib.quote`, which is percent-encoding
  as in section 2.1 of RFC 3986, with `/` kept. Its decoding is also here.
  Quoting is proved lossless and injective.
- `Utils` (`utils.py` → `utils.dfy`): `import_attribute` over a registry that
  maps a module name to the attributes the module defines.
- `Services` (`services.dfy`): the collaborators the core drives. A storage
  engine is an object holding a name → bytes map. Its engine-specific policies
  (free names, URLs, paths, listings, clocks) are given as functions. The
  Django cache is an object holding a key → bool map.
- `Resolution` (`resolution.dfy`): the three-way `get_storage` rule both
  facades share, with one lemma per case.
- `Tasks` (`tasks.dfy`): `Transfer.run` and the two `transfer` bodies.
  - The transfer task object carries Celery's queue as the sequence of jobs that
    `delay` and `retry` have enqueued.
  - A job carries the six-field descriptor and Celery's `request.retries`.
  - A subclass's own `transfer` is an outcome (True, False or another value)
    given per run.
- `Backends` (`backends.dfy`): `QueuedStorage` as a class over a shared cache,
  two stores and a task object. It includes the configuration checks of
  `__init__` and `_load_backend`.
- `LegacyBackend` (`backend.dfy`): `QueuedRemoteStorage`, with its lazily
  built and memoised `local` and `remote` instances. `DelayedStorage` is the
  same class with `delayed` set.
- `StorageTests` (`scenarios.dfy`): the repository's storage tests replayed
  on the model. Each one holds for every file name and every content. The
  worker's `run` is given the facade's own store objects; the tests as
  written do not arrange that (see Findings).

Where the code and its documentation disagree, the model follows the code:
- The `save` docstring (`queued_storage/backends.py:167-171`) says a transfer
  is queued when `delayed` is true. The code at line 185 queues one only when
  `delayed` is false. The model and the tests (`tests/test_storages.py:79-99`)
  follow the code.
- `QueuedStorage.save` hands the transfer the cache key of the name it was
  given (line 179), not the key of the name `local.save` returns (line 181).
  The model keeps this. When the local engine renames a file, a later
  successful transfer marks the original name's key true.
- `QueuedRemoteStorage.transfer` passes eight positional values to its task:
  name, both classes, the cache key, then args and kwargs for each store. The
  task it falls back to, `queued_storage.tasks.Transfer`, takes six in `run`.
  So the legacy facade works only with a task of its own, as in
  `queued_storage/tests/__init__.py:83-96`. The model records the
  eight-value job and runs it only through that test task.

## Model

| member | source | states |
|---|---|---|
| UrlQuote.Escape | queued_storage/backends.py:129 | a byte that is not kept becomes `%` and two upper-case hexadecimal digits whose value is the byte |
| UrlQuote.Quote | queued_storage/backends.py:129 | the quoted name is at least as long as the name, uses only unreserved characters, `%` and hexadecimal digits, and is empty only for the empty name |
| UrlQuote.UnquoteQuote | queued_storage/backends.py:121-129 | percent-decoding the quoted name gives the name back |
| UrlQuote.QuoteInjective | queued_storage/backends.py:129 | two names with the same quotation are equal |
| UrlQuote.QuoteUnreservedIdentity | queued_storage/backends.py:129 | a name of letters, digits, `_`, `.`, `-` and `/` is its own quotation |
| UrlQuote.PrefixedQuoteInjective | queued_storage/backend.py:61-62 | under one prefix, `prefix + quote(name)` determines the name, so legacy cache keys of distinct names differ |
| Utils.LastDot | queued_storage/utils.py:9-12 | `rindex('.')`: none exactly when there is no dot; otherwise a dot position with no dot after it |
| Utils.ImportAttribute | queued_storage/utils.py:6-23 | a `None` path and a path without a dot are rejected with their own configuration errors; every failure is `ImproperlyConfigured` |
| Utils.ImportAttributeSplit | queued_storage/utils.py:13-23 | for `m + "." + c` with no dot in `c`: unknown module `m` → module error; known module without `c` → attribute error; otherwise exactly `registry[m][c]` |
| Utils.ImportAttributeSuccess | queued_storage/utils.py:10-20 | a successful load splits the path into a module, a dot and a dot-free attribute name, and returns that registered attribute |
| Utils.ImportIgnoresOptions | queued_storage/utils.py:6 | the `options` argument never changes the result |
| Services.Store.Save | queued_storage/backends.py:181 | a store saves the content under its available name for the given name, returns that name and changes no other file |
| Services.Store.Delete | queued_storage/tasks.py:131 | deleting removes exactly that name from the store |
| Services.Cache.Set | queued_storage/backends.py:116 | setting a key changes that entry only |
| Resolution.ConfirmedRemote | queued_storage/backends.py:112-114 | a true entry selects remote whatever the remote store holds, and the cache is unchanged |
| Resolution.PendingLocal | queued_storage/backends.py:113-119 | a false entry selects local whatever the remote store holds, and the cache is unchanged |
| Resolution.DiscoveredRemote | queued_storage/backends.py:115-117 | a missing entry for a file the remote store has selects remote and records true, so the next lookup answers from the cache |
| Resolution.UnknownLocal | queued_storage/backends.py:115-119 | a missing entry for a file the remote store lacks selects local and leaves the entry missing |
| Resolution.ResolveStable | queued_storage/backends.py:112-119 | resolving twice answers the same as once and changes the cache no further |
| Resolution.HealOnlyConfirms | queued_storage/backends.py:115-116 | resolution only ever adds the resolved key, as true; every other key reads the same |
| Tasks.NextRetry | queued_storage/tasks.py:52-58 | a retry is granted exactly while fewer than `max_retries` retries have happened, and it is retry number `retries + 1` |
| Tasks.ChainRuns | queued_storage/tasks.py:90-93 | a chain of runs never makes more runs than `max_retries - retries + 1`, nor more than there are outcomes, and makes at least one |
| Tasks.PersistentFailureExhausts | queued_storage/tasks.py:52-54 | a transfer that keeps returning False runs exactly `max_retries + 1` times from a fresh job |
| Tasks.FailOnceThenSucceed | queued_storage/tasks.py:90-93 | a transfer that returns False once and then True runs twice, one retry |
| Tasks.DeleteOnlyAfterSuccess | queued_storage/tasks.py:127-132 | after `TransferAndDelete` the name is still local iff it was there and the transfer did not return True; when it returned False the local files are exactly as before |
| Tasks.PlainTransferCopies | queued_storage/tasks.py:111-113 | a successful plain transfer keeps the local copy and, with an engine that keeps free names, the remote store holds the local content under the same name |
| Tasks.TransferTask.constructor | queued_storage/tasks.py:52-58 | a task starts with an empty queue, five retries and a 60-second retry delay |
| Tasks.TransferTask.Delay | queued_storage/backends.py:202-204 | `delay` appends the descriptor as a first-attempt job and returns its position |
| Tasks.TransferTask.BaseTransfer | queued_storage/tasks.py:99-118 | returns true iff the local file opens and the remote save does not fail; on success the remote store gains the content under its available name, and local is untouched |
| Tasks.TransferTask.Transfer | queued_storage/tasks.py:121-132 | the outcome and both stores afterwards are the variant's: plain copies, the deleting variant also removes the local copy on success, an override changes nothing |
| Tasks.TransferTask.RunChain | queued_storage/tasks.py:86-96 | executing a job and each retry it enqueues, with the given `transfer` results, makes exactly as many runs as `ChainRuns` counts, so never more than `max_retries - retries + 1` |
| Tasks.TransferTask.Run | queued_storage/tasks.py:60-97 | an import error propagates with nothing changed; True sets the key true and sends one signal with (name, local, remote); False retries the identical descriptor while retries remain and otherwise raises `MaxRetriesExceeded`; any other value raises `ValueError` with no cache write, retry or signal; a true entry is never made false |
| Backends.LoadBackendAsWritten | queued_storage/backends.py:90-100 | the checks as written; see Findings |
| Backends.MissingBackendRaisesTypeError | queued_storage/backends.py:91-94 | as written, a missing backend does not raise a configuration error |
| Backends.LoadBackend | queued_storage/backends.py:90-100 | a backend is accepted iff it is a dotted-path string, which is returned; `None` and a class or instance are each rejected with `ImproperlyConfigured` |
| Backends.Configure | queued_storage/backends.py:69-88 | a local backend that is missing, empty or not a string is rejected, and so is a missing or non-string remote once the local one loads; three non-empty dotted paths (the task defaulting to `queued_storage.tasks.Transfer`) that all import are accepted; on success both paths are given, non-empty and importable, the task defaults to `queued_storage.tasks.Transfer` and is importable, options default to `{}`, `delayed` to false and the prefix to `queued_storage`; every failure is `ImproperlyConfigured` |
| Backends.CacheKeyInjective | queued_storage/backends.py:121-129 | two names with the same `prefix + "_" + quote(name)` key are equal |
| Backends.QueuedStorage.constructor | queued_storage/backends.py:69-88 | the facade takes the configured paths, options, `delayed`, prefix and the two distinct store instances, and has no result yet |
| Backends.QueuedStorage.GetStorage | queued_storage/backends.py:102-119 | returns the store the resolution rule picks, updates the cache as the rule says, and leaves the resolved location unchanged |
| Backends.QueuedStorage.UsingLocal | queued_storage/backends.py:131-140 | true iff the resolved store is local |
| Backends.QueuedStorage.UsingRemote | queued_storage/backends.py:142-151 | true iff the resolved store is remote |
| Backends.UsingExactlyOne | queued_storage/backends.py:131-151 | `using_local` and `using_remote` for a name always disagree |
| Backends.QueuedStorage.Save | queued_storage/backends.py:165-187 | the given name's key becomes false and resolves to local; the content is saved locally under the returned available name; exactly one job, carrying the saved name and the given name's key, is enqueued iff not `delayed`, and its handle becomes the result |
| Backends.QueuedStorage.Transfer | queued_storage/backends.py:189-204 | enqueues one job with the name, the given key or else `prefix + "_" + quote(name)`, both paths and both option maps, and changes nothing else |
| Backends.QueuedStorage.Open | queued_storage/backends.py:153-163 | the resolved store's `open` |
| Backends.QueuedStorage.GetValidName | queued_storage/backends.py:206-215 | the resolved store's `get_valid_name` |
| Backends.QueuedStorage.GetAvailableName | queued_storage/backends.py:217-226 | the resolved store's `get_available_name` |
| Backends.QueuedStorage.Path | queued_storage/backends.py:228-238 | the resolved store's `path` |
| Backends.QueuedStorage.Delete | queued_storage/backends.py:240-247 | removes the name from the resolved store only |
| Backends.QueuedStorage.Exists | queued_storage/backends.py:249-259 | the resolved store's `exists` |
| Backends.QueuedStorage.ListDir | queued_storage/backends.py:261-270 | the resolved store's `listdir` |
| Backends.QueuedStorage.Size | queued_storage/backends.py:272-280 | the resolved store's `size` |
| Backends.QueuedStorage.Url | queued_storage/backends.py:282-291 | the resolved store's `url` |
| Backends.QueuedStorage.AccessedTime | queued_storage/backends.py:293-302 | the resolved store's `accessed_time` |
| Backends.QueuedStorage.CreatedTime | queued_storage/backends.py:304-313 | the resolved store's `created_time` |
| Backends.QueuedStorage.ModifiedTime | queued_storage/backends.py:315-324 | the resolved store's `modified_time` |
| LegacyBackend.LegacyQueue.Delay | queued_storage/backend.py:85-86 | `task.delay` records the eight values and returns their position |
| LegacyBackend.QueuedRemoteStorage.constructor | queued_storage/backend.py:11-28 | no instance is built yet; absent args become `()` and absent kwargs `{}` |
| LegacyBackend.QueuedRemoteStorage.LocalStore | queued_storage/backend.py:34-40 | the `local` property always returns the one instance the local class builds, and keeps it |
| LegacyBackend.QueuedRemoteStorage.RemoteStore | queued_storage/backend.py:42-48 | the `remote` property always returns the one instance the remote class builds, and keeps it |
| LegacyBackend.QueuedRemoteStorage.GetStorage | queued_storage/backend.py:50-59 | the same resolution rule as the newer facade; the remote instance is built unless the entry is false, the local one only when it is returned |
| LegacyBackend.QueuedRemoteStorage.UsingLocal | queued_storage/backend.py:64-65 | true iff the resolved store is local; the local instance is built afterwards, and the remote one unless the entry was false |
| LegacyBackend.QueuedRemoteStorage.UsingRemote | queued_storage/backend.py:67-68 | true iff the resolved store is remote; the remote instance is built afterwards, and the local one when it was the resolved store |
| LegacyBackend.QueuedRemoteStorage.Save | queued_storage/backend.py:73-79 | the given name's key becomes false and resolves to local; the local instance is built and the content saved in it under the returned name; unless `delayed` (`DelayedStorage.save`, lines 136-140, which queues nothing) one job keyed by the returned name is enqueued and its handle becomes the result; the remote instance is not among what a save may change |
| LegacyBackend.QueuedRemoteStorage.Transfer | queued_storage/backend.py:81-86 | enqueues the name, both classes, `prefix + quote(name)` and both args and kwargs, and changes nothing else |
| LegacyBackend.QueuedRemoteStorage.Open | queued_storage/backend.py:70-71 | the resolved store's `open`; as `get_storage`, the resolved instance is built afterwards and the remote one unless the entry was false |
| LegacyBackend.QueuedRemoteStorage.GetValidName | queued_storage/backend.py:88-89 | the resolved store's `get_valid_name`; as `get_storage`, the resolved instance is built afterwards and the remote one unless the entry was false |
| LegacyBackend.QueuedRemoteStorage.GetAvailableName | queued_storage/backend.py:91-92 | the resolved store's `get_available_name`; as `get_storage`, the resolved instance is built afterwards and the remote one unless the entry was false |
| LegacyBackend.QueuedRemoteStorage.Path | queued_storage/backend.py:94-95 | the resolved store's `path`; as `get_storage`, the resolved instance is built afterwards and the remote one unless the entry was false |
| LegacyBackend.QueuedRemoteStorage.Delete | queued_storage/backend.py:97-98 | removes the name from the resolved store only; as `get_storage`, the resolved instance is built afterwards and the remote one unless the entry was false |
| LegacyBackend.QueuedRemoteStorage.Exists | queued_storage/backend.py:100-101 | the resolved store's `exists`; as `get_storage`, the resolved instance is built afterwards and the remote one unless the entry was false |
| LegacyBackend.QueuedRemoteStorage.ListDir | queued_storage/backend.py:103-104 | the resolved store's `listdir`; as `get_storage`, the resolved instance is built afterwards and the remote one unless the entry was false |
| LegacyBackend.QueuedRemoteStorage.Size | queued_storage/backend.py:106-107 | the resolved store's `size`; as `get_storage`, the resolved instance is built afterwards and the remote one unless the entry was false |
| LegacyBackend.QueuedRemoteStorage.Url | queued_storage/backend.py:109-110 | the resolved store's `url`; as `get_storage`, the resolved instance is built afterwards and the remote one unless the entry was false |
| LegacyBackend.QueuedRemoteStorage.AccessedTime | queued_storage/backend.py:112-113 | the resolved store's `accessed_time`; as `get_storage`, the resolved instance is built afterwards and the remote one unless the entry was false |
| LegacyBackend.QueuedRemoteStorage.CreatedTime | queued_storage/backend.py:115-116 | the resolved store's `created_time`; as `get_storage`, the resolved instance is built afterwards and the remote one unless the entry was false |
| LegacyBackend.QueuedRemoteStorage.ModifiedTime | queued_storage/backend.py:118-119 | the resolved store's `modified_time`; as `get_storage`, the resolved instance is built afterwards and the remote one unless the entry was false |
| StorageTests.TestPathsImport | tests/test_storages.py:43-49 | the test storages `tests.backends.LocalStorage` and `RemoteStorage` and the test task paths are importable |
| StorageTests.TestSettingsAccepted | tests/test_storages.py:51-57 | the test settings are accepted, with the given cache prefix or the default one |
| StorageTests.TestDescriptorImports | queued_storage/tasks.py:82-83 | a run of a descriptor built by the test facade imports both storage classes |
| StorageTests.SavedOnTestStorage | tests/test_storages.py:83-96 | after a save on fresh stores, only the local store holds the file, its key is false, and a job is queued iff not delayed |
| StorageTests.DelayedSaveThenTransfer | tests/test_storages.py:79-150 | a delayed save stays local and queues nothing; after `transfer` and its run the file resolves to remote and is copied, and the local copy is kept by `Transfer` and removed by `TransferAndDelete` |
| StorageTests.WorkerOwnDirectories | tests/test_storages.py:83-87 | as written, the worker's rebuilt local store lacks the saved file: the run asks for a retry, the file stays local and the remote store stays empty |
| StorageTests.CelerySaved | tests/test_storages.py:152-168 | a non-delayed save's job completes, the file is copied and its key is true |
| StorageTests.CelerySave | tests/test_storages.py:152-196 | after a non-delayed save the file resolves to remote, and a second `transfer` keeps it there; with `TransferAndDelete` that second run asks for a retry |
| StorageTests.TransferReturnsBoolean | tests/test_storages.py:198-214 | a task returning `None` raises `ValueError`; the file stays local, with no retry and no signal |
| StorageTests.TransferRetried | tests/test_storages.py:216-233 | a task returning False then True is retried exactly once with the same descriptor, and the file ends up remote |
| StorageTests.LegacyTestTask | queued_storage/tests/__init__.py:83-96 | the test's eight-argument task saves the local file on the remote store twice, or fails when the local file is missing |
| StorageTests.LegacySimpleSave | queued_storage/tests/__init__.py:80-113 | a legacy save builds only the local instance, queues one job keyed by the saved name, and its task leaves the file in both stores |

## Left out

- Real storage engines (file system, S3 and the others) are not modelled.
  A store is a name → bytes map, and each engine's own policies are given
  functions. `path` answers `NotImplemented` where the engine has no path.
- Building a store instance from a class and its options is outside the
  model: `LazyBackend`, `import_attribute(path)(**options)` and legacy
  `get_storage_class(cls)(*args, **kwargs)`. The facades and the transfer task receive
  the instances. The errors of `get_storage_class` in the legacy facade are
  not modelled.
- `import_module` is a registry lookup. Errors other than `ImportError`
  raised while importing a module are not modelled.
- Celery is not modelled: delivery, eager mode, the 60-second countdown,
  result handles and workers. A queue is the sequence of enqueued jobs, and a
  job is run by calling `Run` on it.
- Concurrency is not modelled. Nothing in the code makes the cache's
  check-then-set atomic.
- Names are Python 2 byte strings (`str`), where `urllib.quote` escapes any
  byte. Django passes unicode names, and `urllib.quote` raises `KeyError` on
  a unicode name with any non-ASCII character. So under Python 2, `save`
  raises at `queued_storage/backends.py:179` (legacy:
  `queued_storage/backend.py:74`) before anything is written, and so does
  every other lookup. That path is not modelled.
- Timestamps are opaque integers from the engine. Open modes are passed
  along and do not change what is read.
- A remote engine error during a transfer is the `remoteFails` flag. The
  model leaves the remote store unchanged in that case.
- Engine errors outside the `try` of `Transfer.transfer` are not modelled;
  `Store.Exists`, `Store.Save` and `Store.Delete` always succeed. The
  unmodelled paths are these:
  - `local.delete` raising in `TransferAndDelete.transfer`
    (`queued_storage/tasks.py:131`) propagates out of `run` before the key is
    set true (line 87): the remote copy exists, the key stays false, and
    there is no signal and no retry;
  - `remote.exists` raising in `get_storage` (`queued_storage/backends.py:115`)
    propagates to the caller with the cache unchanged;
  - `local.save` raising in `save` (`queued_storage/backends.py:181`) leaves
    the key false with nothing saved and no job queued.
- The scenarios for `tests/test_storages.py` give the worker's `run` the
  facade's own store objects, standing for rebuilt instances that see the
  same directories. The tests as written build them without a `location`,
  so each gets its own temporary directory (`tests/backends.py:10-11`);
  `StorageTests.WorkerOwnDirectories` shows what that does.
- A subclass's own `transfer` (`Variant.Overriding`) is modelled by its
  return value only. It is taken to leave both stores unchanged.
- `Tasks.TransferTask.Run`: the signal records (sender, name, local, remote).
  The name mismatch between `queued_storage/signals.py` and the
  `file_transferred` import in `tasks.py` is not modelled.
- `QueuedRemoteStorage` with its default task: the eight-value job is not
  run through the six-parameter `Transfer.run`. In Python that call raises
  `TypeError`, so `queued_storage/tests/__init__.py:115-134` does not pass as
  written.
- Some parts of the source are not modelled:
  - subclasses that only supply default dotted paths (`QueuedFileSystemStorage`,
    `QueuedS3BotoStorage` and the others; `DoubleFilesystemStorage`,
    `S3Storage`);
  - the `QueuedFileField` wrapper in `queued_storage/fields.py`;
  - logging.
- The settings `QUEUED_STORAGE_CACHE_PREFIX`, `QUEUED_STORAGE_CACHE_KEY`,
  `QUEUED_STORAGE_RETRIES` and `QUEUED_STORAGE_RETRY_DELAY` are their
  defaults.

## Findings

| source | as written | input that shows it | evidently intended | confidence | as-written member | corrected member |
|---|---|---|---|---|---|---|
| queued_storage/backends.py:91-94 | the message for a missing backend has one `%s` but is formatted with the pair `(self, backend)`, so Python raises `TypeError: not all arguments converted` | `QueuedStorage()` with no `local` (class attribute `None`): `_load_backend(backend=None)` | `ImproperlyConfigured` saying the class does not define a needed backend | high (not executed) | Backends.LoadBackendAsWritten, Backends.MissingBackendRaisesTypeError | Backends.LoadBackend (used by Backends.Configure) |
| tests/test_storages.py:83-87 | `QueuedStorage('tests.backends.LocalStorage', 'tests.backends.RemoteStorage')` gives no `location`; `run` rebuilds both storages from the descriptor (`queued_storage/tasks.py:82-83`), and each `LocalStorage()` and `RemoteStorage()` makes a fresh temporary directory (`tests/backends.py:10-11`), so the worker's local store does not hold the saved file | a delayed save of any file followed by `transfer()`: `transfer` returns False and the run retries instead of moving the file | both sides see the same directories, e.g. a shared `location` option, as `queued_storage/tests/__init__.py:102-103` passes for the legacy facade | medium (not executed) | StorageTests.WorkerOwnDirectories | StorageTests.DelayedSaveThenTransfer, StorageTests.CelerySave (the worker's instances are the facade's) |
