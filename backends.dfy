/** `queued_storage.backends.QueuedStorage`: a storage facade over a local and a
    remote store. Saves go to the local store, mark the file's cache key
    false and, unless `delayed`, enqueue a transfer; every other operation is
    sent to the store the resolver picks. */
module Backends {
  import opened Base
  import opened UrlQuote
  import opened Utils
  import opened Services
  import opened Resolution
  import opened Tasks

  /** QUEUED_STORAGE_CACHE_PREFIX and the class attribute `task`. */
  const DefaultCachePrefix: string := "queued_storage"
  const DefaultTask: string := "queued_storage.tasks.Transfer"

  /** A backend argument: not given (`None`), a string, or a class or
      instance (anything that is not a string). */
  datatype BackendArg = Unset | DottedPath(path: string) | NotAString

  /** Python's `arg or default`: `None` and the empty string are false. */
  function OrElse(arg: BackendArg, default: BackendArg): BackendArg {
    if arg == Unset || arg == DottedPath("") then default else arg
  }

  /** `_load_backend`'s checks as written: the `None` branch formats a message
      with one `%s` and two arguments, so Python raises `TypeError` there. */
  function LoadBackendAsWritten(backend: BackendArg): Result<string, PyError> {
    match backend
    case Unset => Failure(FormatArgumentMismatch)
    case NotAString => Failure(ImproperlyConfigured(BackendNotDottedPath))
    case DottedPath(p) => Success(p)
  }

  /** A missing backend does not surface as a configuration error. */
  lemma MissingBackendRaisesTypeError()
    ensures LoadBackendAsWritten(Unset).Failure?
    ensures !LoadBackendAsWritten(Unset).error.ImproperlyConfigured?
  {
  }

  /** `_load_backend`'s checks as intended: only a dotted-path string is
      accepted, and both other kinds raise `ImproperlyConfigured`. */
  function LoadBackend(backend: BackendArg): (r: Result<string, PyError>)
    ensures r.Success? <==> backend.DottedPath?
    ensures r.Success? ==> r.value == backend.path
    ensures backend == Unset ==> r == Failure(ImproperlyConfigured(MissingBackend))
    ensures backend == NotAString ==> r == Failure(ImproperlyConfigured(BackendNotDottedPath))
  {
    match backend
    case Unset => Failure(ImproperlyConfigured(MissingBackend))
    case NotAString => Failure(ImproperlyConfigured(BackendNotDottedPath))
    case DottedPath(p) => Success(p)
  }

  /** The constructor's arguments; `None` where the caller passed nothing. */
  datatype Settings = Settings(
    local: BackendArg,
    remote: BackendArg,
    localOptions: Option<Options>,
    remoteOptions: Option<Options>,
    cachePrefix: Option<string>,
    delayed: Option<bool>,
    task: BackendArg)

  /** What `__init__` settles on. */
  datatype Config = Config(
    localPath: string,
    localOptions: Options,
    remotePath: string,
    remoteOptions: Options,
    taskPath: string,
    delayed: bool,
    cachePrefix: string)

  /** The configuration checks of `__init__`: each backend must be a dotted path
      (the class attributes `local` and `remote` are `None`, `task` names the
      plain transfer task) naming something importable; `LazyBackend` imports
      the storage classes at once and builds the instances later. */
  function Configure<V>(s: Settings, registry: Registry<V>): (r: Result<Config, PyError>)
    ensures OrElse(s.local, Unset) == Unset ==> r == Failure(ImproperlyConfigured(MissingBackend))
    ensures s.local == NotAString ==> r == Failure(ImproperlyConfigured(BackendNotDottedPath))
    ensures s.local.DottedPath? && s.local.path != "" && OrElse(s.remote, Unset) == Unset &&
            ImportAttribute(registry, Some(s.local.path), None).Success? ==>
              r == Failure(ImproperlyConfigured(MissingBackend))
    ensures s.local.DottedPath? && s.local.path != "" && s.remote == NotAString &&
            ImportAttribute(registry, Some(s.local.path), None).Success? ==>
              r == Failure(ImproperlyConfigured(BackendNotDottedPath))
    // three non-empty dotted paths that all import are accepted
    ensures && s.local.DottedPath? && s.local.path != ""
            && s.remote.DottedPath? && s.remote.path != ""
            && OrElse(s.task, DottedPath(DefaultTask)).DottedPath?
            && ImportAttribute(registry, Some(s.local.path), None).Success?
            && ImportAttribute(registry, Some(s.remote.path), None).Success?
            && ImportAttribute(registry, Some(OrElse(s.task, DottedPath(DefaultTask)).path), None).Success?
            ==> r.Success?
    ensures r.Failure? ==> r.error.ImproperlyConfigured?
    ensures r.Success? ==>
              && s.local.DottedPath? && r.value.localPath == s.local.path != ""
              && s.remote.DottedPath? && r.value.remotePath == s.remote.path != ""
              && OrElse(s.task, DottedPath(DefaultTask)).DottedPath?
              && r.value.taskPath == OrElse(s.task, DottedPath(DefaultTask)).path
              && ImportAttribute(registry, Some(r.value.localPath), None).Success?
              && ImportAttribute(registry, Some(r.value.remotePath), None).Success?
              && ImportAttribute(registry, Some(r.value.taskPath), None).Success?
              && r.value.localOptions == s.localOptions.GetOr(map[])
              && r.value.remoteOptions == s.remoteOptions.GetOr(map[])
              && r.value.delayed == s.delayed.GetOr(false)
              && r.value.cachePrefix == s.cachePrefix.GetOr(DefaultCachePrefix)
  {
    var localPath :- LoadBackend(OrElse(s.local, Unset));
    var localOptions := s.localOptions.GetOr(map[]);
    var _ :- ImportAttribute(registry, Some(localPath), None);
    var remotePath :- LoadBackend(OrElse(s.remote, Unset));
    var remoteOptions := s.remoteOptions.GetOr(map[]);
    var _ :- ImportAttribute(registry, Some(remotePath), None);
    var taskPath :- LoadBackend(OrElse(s.task, DottedPath(DefaultTask)));
    var _ :- ImportAttribute(registry, Some(taskPath), None);
    Success(Config(localPath, localOptions, remotePath, remoteOptions, taskPath,
                   s.delayed.GetOr(false), s.cachePrefix.GetOr(DefaultCachePrefix)))
  }

  /** `get_cache_key` for a prefix: prefix, underscore, quoted name. */
  function CacheKeyFor(prefix: string, name: Name): string {
    prefix + "_" + Quote(name)
  }

  /** Different names never share a cache key, so the state recorded for one
      file cannot be read or overwritten through another. */
  lemma CacheKeyInjective(prefix: string, a: Name, b: Name)
    requires CacheKeyFor(prefix, a) == CacheKeyFor(prefix, b)
    ensures a == b
  {
    assert CacheKeyFor(prefix, a) == (prefix + "_") + Quote(a);
    assert CacheKeyFor(prefix, b) == (prefix + "_") + Quote(b);
    PrefixedQuoteInjective(prefix + "_", a, b);
  }

  class QueuedStorage {
    const localPath: string
    const localOptions: Options
    const local: Store
    const remotePath: string
    const remoteOptions: Options
    const remote: Store
    const task: TransferTask
    const delayed: bool
    const cachePrefix: string
    const cache: Cache
    /** The handle of the transfer the last non-delayed `save` enqueued. */
    var result: Option<nat>

    /** The two `LazyBackend` objects are always distinct. */
    ghost predicate Valid()
      reads this
    {
      local != remote
    }

    /** `__init__` after `Configure` accepted the settings; `local` and
        `remote` are the instances the configured classes build. */
    constructor (cfg: Config, local: Store, remote: Store, task: TransferTask, cache: Cache)
      requires local != remote
      ensures Valid()
      ensures this.local == local && this.remote == remote && this.task == task && this.cache == cache
      ensures localPath == cfg.localPath && localOptions == cfg.localOptions
      ensures remotePath == cfg.remotePath && remoteOptions == cfg.remoteOptions
      ensures delayed == cfg.delayed && cachePrefix == cfg.cachePrefix && result == None
    {
      localPath := cfg.localPath;
      localOptions := cfg.localOptions;
      this.local := local;
      remotePath := cfg.remotePath;
      remoteOptions := cfg.remoteOptions;
      this.remote := remote;
      this.task := task;
      delayed := cfg.delayed;
      cachePrefix := cfg.cachePrefix;
      this.cache := cache;
      result := None;
    }

    function CacheKey(name: Name): string {
      CacheKeyFor(cachePrefix, name)
    }

    /** Where `get_storage(name)` points in the current state. */
    function Locate(name: Name): Location
      reads cache, remote
    {
      Resolve(cache.Get(CacheKey(name)), remote.Exists(name))
    }

    function StoreAt(loc: Location): (s: Store)
      ensures s == local || s == remote
    {
      if loc == Remote then remote else local
    }

    /** `get_storage` */
    method GetStorage(name: Name) returns (s: Store)
      requires Valid()
      modifies cache
      ensures s == StoreAt(old(Locate(name)))
      ensures cache.entries == Heal(old(cache.entries), CacheKey(name), remote.Exists(name))
      ensures Locate(name) == old(Locate(name))
    {
      var entry := cache.Get(CacheKey(name));
      if entry == Some(true) {
        s := remote;
      } else if entry == None && remote.Exists(name) {
        cache.Set(CacheKey(name), true);
        s := remote;
      } else {
        s := local;
      }
      ResolveStable(old(cache.entries), CacheKey(name), remote.Exists(name));
    }

    /** `using_local`: exactly when the resolver picks local. */
    method UsingLocal(name: Name) returns (b: bool)
      requires Valid()
      modifies cache
      ensures b <==> old(Locate(name)) == Local
      ensures cache.entries == Heal(old(cache.entries), CacheKey(name), remote.Exists(name))
      ensures Locate(name) == old(Locate(name))
    {
      var s := GetStorage(name);
      b := s == local;
    }

    /** `using_remote`: exactly when the resolver picks remote. */
    method UsingRemote(name: Name) returns (b: bool)
      requires Valid()
      modifies cache
      ensures b <==> old(Locate(name)) == Remote
      ensures cache.entries == Heal(old(cache.entries), CacheKey(name), remote.Exists(name))
      ensures Locate(name) == old(Locate(name))
    {
      var s := GetStorage(name);
      b := s == remote;
    }

    /** `save`: mark the given name's key false, save locally, and enqueue a
        transfer of the saved name with the given name's key unless delayed. */
    method Save(name: Name, content: Bytes) returns (saved: Name)
      requires Valid()
      modifies cache, local, task, this`result
      ensures saved == old(local.AvailableName(name))
      ensures local.files == old(local.files)[saved := content]
      ensures cache.entries == old(cache.entries)[CacheKey(name) := false]
      ensures Locate(name) == Local
      ensures task.jobs == old(task.jobs) +
                if delayed then []
                else [Job(Descriptor(saved, CacheKey(name), localPath, remotePath, localOptions, remoteOptions), 0)]
      ensures result == if delayed then old(result) else Some(|old(task.jobs)|)
    {
      var cacheKey := CacheKey(name);
      cache.Set(cacheKey, false);
      saved := local.Save(name, content);
      if !delayed {
        var handle := Transfer(saved, Some(cacheKey));
        result := Some(handle);
      }
    }

    /** `transfer`: enqueue one job for `name`; without a key the key is the
        name's own. Nothing else changes. */
    method Transfer(name: Name, cacheKey: Option<string>) returns (handle: nat)
      modifies task
      ensures task.jobs == old(task.jobs) +
                [Job(Descriptor(name, cacheKey.GetOr(CacheKey(name)),
                                localPath, remotePath, localOptions, remoteOptions), 0)]
      ensures handle == |old(task.jobs)|
    {
      var key := cacheKey.GetOr(CacheKey(name));
      handle := task.Delay(Descriptor(name, key, localPath, remotePath, localOptions, remoteOptions));
    }

    /** `open` */
    method Open(name: Name, mode: string) returns (r: Result<Bytes, StorageError>)
      requires Valid()
      modifies cache
      ensures r == StoreAt(old(Locate(name))).Open(name, mode)
      ensures cache.entries == Heal(old(cache.entries), CacheKey(name), remote.Exists(name))
    {
      var s := GetStorage(name);
      r := s.Open(name, mode);
    }

    /** `get_valid_name` */
    method GetValidName(name: Name) returns (r: Name)
      requires Valid()
      modifies cache
      ensures r == StoreAt(old(Locate(name))).ValidName(name)
      ensures cache.entries == Heal(old(cache.entries), CacheKey(name), remote.Exists(name))
    {
      var s := GetStorage(name);
      r := s.ValidName(name);
    }

    /** `get_available_name`: asks only the store the resolver picks. */
    method GetAvailableName(name: Name) returns (r: Name)
      requires Valid()
      modifies cache
      ensures r == StoreAt(old(Locate(name))).AvailableName(name)
      ensures cache.entries == Heal(old(cache.entries), CacheKey(name), remote.Exists(name))
    {
      var s := GetStorage(name);
      r := s.AvailableName(name);
    }

    /** `path` */
    method Path(name: Name) returns (r: Result<string, StorageError>)
      requires Valid()
      modifies cache
      ensures r == StoreAt(old(Locate(name))).Path(name)
      ensures cache.entries == Heal(old(cache.entries), CacheKey(name), remote.Exists(name))
    {
      var s := GetStorage(name);
      r := s.Path(name);
    }

    /** `delete`: removes the file from the picked store only; the cache entry
        is left as it is. */
    method Delete(name: Name)
      requires Valid()
      modifies cache, local, remote
      ensures old(Locate(name)) == Remote ==>
                remote.files == old(remote.files) - {name} && local.files == old(local.files)
      ensures old(Locate(name)) == Local ==>
                local.files == old(local.files) - {name} && remote.files == old(remote.files)
      ensures cache.entries == Heal(old(cache.entries), CacheKey(name), old(remote.Exists(name)))
    {
      var s := GetStorage(name);
      s.Delete(name);
    }

    /** `exists` */
    method Exists(name: Name) returns (r: bool)
      requires Valid()
      modifies cache
      ensures r == StoreAt(old(Locate(name))).Exists(name)
      ensures cache.entries == Heal(old(cache.entries), CacheKey(name), remote.Exists(name))
    {
      var s := GetStorage(name);
      r := s.Exists(name);
    }

    /** `listdir` */
    method ListDir(name: Name) returns (r: (seq<string>, seq<string>))
      requires Valid()
      modifies cache
      ensures r == StoreAt(old(Locate(name))).ListDir(name)
      ensures cache.entries == Heal(old(cache.entries), CacheKey(name), remote.Exists(name))
    {
      var s := GetStorage(name);
      r := s.ListDir(name);
    }

    /** `size` */
    method Size(name: Name) returns (r: Result<nat, StorageError>)
      requires Valid()
      modifies cache
      ensures r == StoreAt(old(Locate(name))).Size(name)
      ensures cache.entries == Heal(old(cache.entries), CacheKey(name), remote.Exists(name))
    {
      var s := GetStorage(name);
      r := s.Size(name);
    }

    /** `url` */
    method Url(name: Name) returns (r: string)
      requires Valid()
      modifies cache
      ensures r == StoreAt(old(Locate(name))).Url(name)
      ensures cache.entries == Heal(old(cache.entries), CacheKey(name), remote.Exists(name))
    {
      var s := GetStorage(name);
      r := s.Url(name);
    }

    /** `accessed_time` */
    method AccessedTime(name: Name) returns (r: Result<int, StorageError>)
      requires Valid()
      modifies cache
      ensures r == StoreAt(old(Locate(name))).Time(name, Accessed)
      ensures cache.entries == Heal(old(cache.entries), CacheKey(name), remote.Exists(name))
    {
      var s := GetStorage(name);
      r := s.Time(name, Accessed);
    }

    /** `created_time` */
    method CreatedTime(name: Name) returns (r: Result<int, StorageError>)
      requires Valid()
      modifies cache
      ensures r == StoreAt(old(Locate(name))).Time(name, Created)
      ensures cache.entries == Heal(old(cache.entries), CacheKey(name), remote.Exists(name))
    {
      var s := GetStorage(name);
      r := s.Time(name, Created);
    }

    /** `modified_time` */
    method ModifiedTime(name: Name) returns (r: Result<int, StorageError>)
      requires Valid()
      modifies cache
      ensures r == StoreAt(old(Locate(name))).Time(name, Modified)
      ensures cache.entries == Heal(old(cache.entries), CacheKey(name), remote.Exists(name))
    {
      var s := GetStorage(name);
      r := s.Time(name, Modified);
    }
  }

  /** `using_local` and `using_remote` asked one after the other about the
      same name never agree: exactly one store is in use for it. */
  method UsingExactlyOne(storage: QueuedStorage, name: Name) returns (usingLocal: bool, usingRemote: bool)
    requires storage.Valid()
    modifies storage.cache
    ensures usingLocal != usingRemote
    ensures usingLocal <==> old(storage.Locate(name)) == Local
  {
    usingLocal := storage.UsingLocal(name);
    usingRemote := storage.UsingRemote(name);
  }
}
