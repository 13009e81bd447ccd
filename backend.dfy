/** `queued_storage.backend`: the older facade. It names its storage classes
    and their positional and keyword arguments, builds each instance on first
    use, keys the cache with `prefix + quote(name)` and enqueues the eight
    values its own transfer task expects. `DelayedStorage` is the same facade
    with a `save` that enqueues nothing. */
module LegacyBackend {
  import opened Base
  import opened UrlQuote
  import opened Services
  import opened Resolution

  /** QUEUED_STORAGE_CACHE_KEY when the setting is absent. */
  const LegacyCachePrefix: string := "queued_remote_storage_"

  /** The class paths `DoubleFilesystemStorage` and `S3Storage` fix. */
  const FileSystemStorageClass: string := "django.core.files.storage.FileSystemStorage"
  const S3BotoStorageClass: string := "storages.backends.s3boto.S3BotoStorage"

  /** The constructor's arguments; `None` where the caller passed nothing. */
  datatype LegacySettings = LegacySettings(
    localClass: string,
    remoteClass: string,
    cachePrefix: string,
    localArgs: Option<seq<string>>,
    localKwargs: Option<Options>,
    remoteArgs: Option<seq<string>>,
    remoteKwargs: Option<Options>)

  /** The arguments of `QueuedRemoteStorage(local_class, remote_class)`. */
  function DefaultSettings(localClass: string, remoteClass: string): LegacySettings {
    LegacySettings(localClass, remoteClass, LegacyCachePrefix, None, None, None, None)
  }

  /** What `transfer` hands to `task.delay`, in that order. */
  datatype LegacyJob = LegacyJob(
    name: Name,
    localClass: string,
    remoteClass: string,
    cacheKey: string,
    localArgs: seq<string>,
    localKwargs: Options,
    remoteArgs: seq<string>,
    remoteKwargs: Options)

  /** The transfer task the facade was given: `delay` records the call and returns its
      handle. */
  class LegacyQueue {
    var jobs: seq<LegacyJob>

    constructor ()
      ensures jobs == []
    {
      jobs := [];
    }

    method Delay(job: LegacyJob) returns (handle: nat)
      modifies this
      ensures jobs == old(jobs) + [job]
      ensures handle == |old(jobs)|
    {
      handle := |jobs|;
      jobs := jobs + [job];
    }
  }

  class QueuedRemoteStorage {
    const localClass: string
    const localArgs: seq<string>
    const localKwargs: Options
    const remoteClass: string
    const remoteArgs: seq<string>
    const remoteKwargs: Options
    const cachePrefix: string
    const task: LegacyQueue
    const cache: Cache
    /** True for `DelayedStorage`. */
    const delayed: bool
    /** The instances `local_class(*local_args, **local_kwargs)` and its
        remote counterpart build when first asked for. */
    const localBuilt: Store
    const remoteBuilt: Store
    /** `_local_instance` and `_remote_instance`: `null` until first use. */
    var localInstance: Store?
    var remoteInstance: Store?
    var result: Option<nat>

    /** A memoised instance, once there, is the one the class builds. */
    ghost predicate Valid()
      reads this
    {
      && localBuilt != remoteBuilt
      && (localInstance == null || localInstance == localBuilt)
      && (remoteInstance == null || remoteInstance == remoteBuilt)
    }

    /** `__init__`: no instance is built yet; absent arguments become `()`
        and `{}`. */
    constructor (s: LegacySettings, delayed: bool, task: LegacyQueue, cache: Cache,
                 localBuilt: Store, remoteBuilt: Store)
      requires localBuilt != remoteBuilt
      ensures Valid()
      ensures localInstance == null && remoteInstance == null
      ensures localClass == s.localClass && remoteClass == s.remoteClass && cachePrefix == s.cachePrefix
      ensures localArgs == s.localArgs.GetOr([]) && localKwargs == s.localKwargs.GetOr(map[])
      ensures remoteArgs == s.remoteArgs.GetOr([]) && remoteKwargs == s.remoteKwargs.GetOr(map[])
      ensures this.delayed == delayed && this.task == task && this.cache == cache
      ensures this.localBuilt == localBuilt && this.remoteBuilt == remoteBuilt
    {
      localClass := s.localClass;
      localArgs := s.localArgs.GetOr([]);
      localKwargs := s.localKwargs.GetOr(map[]);
      remoteClass := s.remoteClass;
      remoteArgs := s.remoteArgs.GetOr([]);
      remoteKwargs := s.remoteKwargs.GetOr(map[]);
      cachePrefix := s.cachePrefix;
      this.task := task;
      this.cache := cache;
      this.delayed := delayed;
      this.localBuilt := localBuilt;
      this.remoteBuilt := remoteBuilt;
      localInstance := null;
      remoteInstance := null;
      result := None;
    }

    /** `get_cache_key`: the prefix followed directly by the quoted name. */
    function CacheKey(name: Name): string
      reads this
    {
      cachePrefix + Quote(name)
    }

    /** Where `get_storage(name)` points in the current state. */
    function Locate(name: Name): Location
      reads this, cache, remoteBuilt
    {
      Resolve(cache.Get(CacheKey(name)), remoteBuilt.Exists(name))
    }

    function StoreAt(loc: Location): (s: Store)
      reads this
      ensures s == localBuilt || s == remoteBuilt
    {
      if loc == Remote then remoteBuilt else localBuilt
    }

    /** The `local` property: builds the instance once and returns that same
        object on every call. */
    method LocalStore() returns (s: Store)
      requires Valid()
      modifies this`localInstance
      ensures Valid()
      ensures s == localBuilt && localInstance == localBuilt
    {
      if localInstance == null {
        localInstance := localBuilt;
      }
      s := localInstance;
    }

    /** The `remote` property. */
    method RemoteStore() returns (s: Store)
      requires Valid()
      modifies this`remoteInstance
      ensures Valid()
      ensures s == remoteBuilt && remoteInstance == remoteBuilt
    {
      if remoteInstance == null {
        remoteInstance := remoteBuilt;
      }
      s := remoteInstance;
    }

    /** `get_storage`: the resolver's choice; the remote instance is built
        whenever the entry is not false (it is returned or asked), the local
        one only when it is returned. */
    method GetStorage(name: Name) returns (s: Store)
      requires Valid()
      modifies this`localInstance, this`remoteInstance, cache
      ensures Valid()
      ensures s == StoreAt(old(Locate(name)))
      ensures cache.entries == Heal(old(cache.entries), CacheKey(name), remoteBuilt.Exists(name))
      ensures Locate(name) == old(Locate(name))
      ensures localInstance == if old(Locate(name)) == Local then localBuilt else old(localInstance)
      ensures remoteInstance == if old(cache.Get(CacheKey(name))) == Some(false) then old(remoteInstance) else remoteBuilt
    {
      var entry := cache.Get(CacheKey(name));
      if entry == Some(true) {
        s := RemoteStore();
      } else {
        assert entry.Some? ==> entry == Some(entry.value) && !entry.value;
        var has := false;
        if entry == None {
          var r := RemoteStore();
          has := r.Exists(name);
        }
        if has {
          cache.Set(CacheKey(name), true);
          s := RemoteStore();
        } else {
          s := LocalStore();
        }
      }
      ResolveStable(old(cache.entries), CacheKey(name), remoteBuilt.Exists(name));
    }

    /** `using_local` */
    method UsingLocal(name: Name) returns (b: bool)
      requires Valid()
      modifies this`localInstance, this`remoteInstance, cache
      ensures Valid()
      ensures localInstance == localBuilt
      ensures remoteInstance == if old(cache.Get(CacheKey(name))) == Some(false) then old(remoteInstance) else remoteBuilt
      ensures b <==> old(Locate(name)) == Local
      ensures cache.entries == Heal(old(cache.entries), CacheKey(name), remoteBuilt.Exists(name))
      ensures Locate(name) == old(Locate(name))
    {
      var s := GetStorage(name);
      var l := LocalStore();
      b := s == l;
    }

    /** `using_remote` */
    method UsingRemote(name: Name) returns (b: bool)
      requires Valid()
      modifies this`localInstance, this`remoteInstance, cache
      ensures Valid()
      ensures localInstance == if old(Locate(name)) == Local then localBuilt else old(localInstance)
      ensures remoteInstance == remoteBuilt
      ensures b <==> old(Locate(name)) == Remote
      ensures cache.entries == Heal(old(cache.entries), CacheKey(name), remoteBuilt.Exists(name))
      ensures Locate(name) == old(Locate(name))
    {
      var s := GetStorage(name);
      var r := RemoteStore();
      b := s == r;
    }

    /** `save`: mark the given name's key false and save locally; then (except
        in `DelayedStorage`) enqueue the transfer of the saved name, keyed by
        the saved name. */
    method Save(name: Name, content: Bytes) returns (saved: Name)
      requires Valid()
      modifies this`localInstance, this`result, cache, localBuilt, task
      ensures Valid()
      ensures saved == old(localBuilt.AvailableName(name))
      ensures localBuilt.files == old(localBuilt.files)[saved := content]
      ensures cache.entries == old(cache.entries)[CacheKey(name) := false]
      ensures Locate(name) == Local
      ensures localInstance == localBuilt
      ensures task.jobs == old(task.jobs) +
                if delayed then []
                else [LegacyJob(saved, localClass, remoteClass, CacheKey(saved),
                                localArgs, localKwargs, remoteArgs, remoteKwargs)]
      ensures result == if delayed then old(result) else Some(|old(task.jobs)|)
    {
      cache.Set(CacheKey(name), false);
      var l := LocalStore();
      saved := l.Save(name, content);
      if !delayed {
        var handle := Transfer(saved);
        result := Some(handle);
      }
    }

    /** `transfer`: enqueue the eight values for `name`; no instance is built. */
    method Transfer(name: Name) returns (handle: nat)
      modifies task
      ensures task.jobs == old(task.jobs) +
                [LegacyJob(name, localClass, remoteClass, CacheKey(name),
                           localArgs, localKwargs, remoteArgs, remoteKwargs)]
      ensures handle == |old(task.jobs)|
    {
      handle := task.Delay(LegacyJob(name, localClass, remoteClass, CacheKey(name),
                                     localArgs, localKwargs, remoteArgs, remoteKwargs));
    }

    /** `open` */
    method Open(name: Name, mode: string) returns (r: Result<Bytes, StorageError>)
      requires Valid()
      modifies this`localInstance, this`remoteInstance, cache
      ensures Valid()
      ensures localInstance == if old(Locate(name)) == Local then localBuilt else old(localInstance)
      ensures remoteInstance == if old(cache.Get(CacheKey(name))) == Some(false) then old(remoteInstance) else remoteBuilt
      ensures r == StoreAt(old(Locate(name))).Open(name, mode)
      ensures cache.entries == Heal(old(cache.entries), CacheKey(name), remoteBuilt.Exists(name))
    {
      var s := GetStorage(name);
      r := s.Open(name, mode);
    }

    /** `get_valid_name` */
    method GetValidName(name: Name) returns (r: Name)
      requires Valid()
      modifies this`localInstance, this`remoteInstance, cache
      ensures Valid()
      ensures localInstance == if old(Locate(name)) == Local then localBuilt else old(localInstance)
      ensures remoteInstance == if old(cache.Get(CacheKey(name))) == Some(false) then old(remoteInstance) else remoteBuilt
      ensures r == StoreAt(old(Locate(name))).ValidName(name)
      ensures cache.entries == Heal(old(cache.entries), CacheKey(name), remoteBuilt.Exists(name))
    {
      var s := GetStorage(name);
      r := s.ValidName(name);
    }

    /** `get_available_name` */
    method GetAvailableName(name: Name) returns (r: Name)
      requires Valid()
      modifies this`localInstance, this`remoteInstance, cache
      ensures Valid()
      ensures localInstance == if old(Locate(name)) == Local then localBuilt else old(localInstance)
      ensures remoteInstance == if old(cache.Get(CacheKey(name))) == Some(false) then old(remoteInstance) else remoteBuilt
      ensures r == StoreAt(old(Locate(name))).AvailableName(name)
      ensures cache.entries == Heal(old(cache.entries), CacheKey(name), remoteBuilt.Exists(name))
    {
      var s := GetStorage(name);
      r := s.AvailableName(name);
    }

    /** `path` */
    method Path(name: Name) returns (r: Result<string, StorageError>)
      requires Valid()
      modifies this`localInstance, this`remoteInstance, cache
      ensures Valid()
      ensures localInstance == if old(Locate(name)) == Local then localBuilt else old(localInstance)
      ensures remoteInstance == if old(cache.Get(CacheKey(name))) == Some(false) then old(remoteInstance) else remoteBuilt
      ensures r == StoreAt(old(Locate(name))).Path(name)
      ensures cache.entries == Heal(old(cache.entries), CacheKey(name), remoteBuilt.Exists(name))
    {
      var s := GetStorage(name);
      r := s.Path(name);
    }

    /** `delete`: removes the file from the picked store only. */
    method Delete(name: Name)
      requires Valid()
      modifies this`localInstance, this`remoteInstance, cache, localBuilt, remoteBuilt
      ensures Valid()
      ensures localInstance == if old(Locate(name)) == Local then localBuilt else old(localInstance)
      ensures remoteInstance == if old(cache.Get(CacheKey(name))) == Some(false) then old(remoteInstance) else remoteBuilt
      ensures old(Locate(name)) == Remote ==>
                remoteBuilt.files == old(remoteBuilt.files) - {name} && localBuilt.files == old(localBuilt.files)
      ensures old(Locate(name)) == Local ==>
                localBuilt.files == old(localBuilt.files) - {name} && remoteBuilt.files == old(remoteBuilt.files)
      ensures cache.entries == Heal(old(cache.entries), CacheKey(name), old(remoteBuilt.Exists(name)))
    {
      var s := GetStorage(name);
      s.Delete(name);
    }

    /** `exists` */
    method Exists(name: Name) returns (r: bool)
      requires Valid()
      modifies this`localInstance, this`remoteInstance, cache
      ensures Valid()
      ensures localInstance == if old(Locate(name)) == Local then localBuilt else old(localInstance)
      ensures remoteInstance == if old(cache.Get(CacheKey(name))) == Some(false) then old(remoteInstance) else remoteBuilt
      ensures r == StoreAt(old(Locate(name))).Exists(name)
      ensures cache.entries == Heal(old(cache.entries), CacheKey(name), remoteBuilt.Exists(name))
    {
      var s := GetStorage(name);
      r := s.Exists(name);
    }

    /** `listdir` */
    method ListDir(name: Name) returns (r: (seq<string>, seq<string>))
      requires Valid()
      modifies this`localInstance, this`remoteInstance, cache
      ensures Valid()
      ensures localInstance == if old(Locate(name)) == Local then localBuilt else old(localInstance)
      ensures remoteInstance == if old(cache.Get(CacheKey(name))) == Some(false) then old(remoteInstance) else remoteBuilt
      ensures r == StoreAt(old(Locate(name))).ListDir(name)
      ensures cache.entries == Heal(old(cache.entries), CacheKey(name), remoteBuilt.Exists(name))
    {
      var s := GetStorage(name);
      r := s.ListDir(name);
    }

    /** `size` */
    method Size(name: Name) returns (r: Result<nat, StorageError>)
      requires Valid()
      modifies this`localInstance, this`remoteInstance, cache
      ensures Valid()
      ensures localInstance == if old(Locate(name)) == Local then localBuilt else old(localInstance)
      ensures remoteInstance == if old(cache.Get(CacheKey(name))) == Some(false) then old(remoteInstance) else remoteBuilt
      ensures r == StoreAt(old(Locate(name))).Size(name)
      ensures cache.entries == Heal(old(cache.entries), CacheKey(name), remoteBuilt.Exists(name))
    {
      var s := GetStorage(name);
      r := s.Size(name);
    }

    /** `url` */
    method Url(name: Name) returns (r: string)
      requires Valid()
      modifies this`localInstance, this`remoteInstance, cache
      ensures Valid()
      ensures localInstance == if old(Locate(name)) == Local then localBuilt else old(localInstance)
      ensures remoteInstance == if old(cache.Get(CacheKey(name))) == Some(false) then old(remoteInstance) else remoteBuilt
      ensures r == StoreAt(old(Locate(name))).Url(name)
      ensures cache.entries == Heal(old(cache.entries), CacheKey(name), remoteBuilt.Exists(name))
    {
      var s := GetStorage(name);
      r := s.Url(name);
    }

    /** `accessed_time` */
    method AccessedTime(name: Name) returns (r: Result<int, StorageError>)
      requires Valid()
      modifies this`localInstance, this`remoteInstance, cache
      ensures Valid()
      ensures localInstance == if old(Locate(name)) == Local then localBuilt else old(localInstance)
      ensures remoteInstance == if old(cache.Get(CacheKey(name))) == Some(false) then old(remoteInstance) else remoteBuilt
      ensures r == StoreAt(old(Locate(name))).Time(name, Accessed)
      ensures cache.entries == Heal(old(cache.entries), CacheKey(name), remoteBuilt.Exists(name))
    {
      var s := GetStorage(name);
      r := s.Time(name, Accessed);
    }

    /** `created_time` */
    method CreatedTime(name: Name) returns (r: Result<int, StorageError>)
      requires Valid()
      modifies this`localInstance, this`remoteInstance, cache
      ensures Valid()
      ensures localInstance == if old(Locate(name)) == Local then localBuilt else old(localInstance)
      ensures remoteInstance == if old(cache.Get(CacheKey(name))) == Some(false) then old(remoteInstance) else remoteBuilt
      ensures r == StoreAt(old(Locate(name))).Time(name, Created)
      ensures cache.entries == Heal(old(cache.entries), CacheKey(name), remoteBuilt.Exists(name))
    {
      var s := GetStorage(name);
      r := s.Time(name, Created);
    }

    /** `modified_time` */
    method ModifiedTime(name: Name) returns (r: Result<int, StorageError>)
      requires Valid()
      modifies this`localInstance, this`remoteInstance, cache
      ensures Valid()
      ensures localInstance == if old(Locate(name)) == Local then localBuilt else old(localInstance)
      ensures remoteInstance == if old(cache.Get(CacheKey(name))) == Some(false) then old(remoteInstance) else remoteBuilt
      ensures r == StoreAt(old(Locate(name))).Time(name, Modified)
      ensures cache.entries == Heal(old(cache.entries), CacheKey(name), remoteBuilt.Exists(name))
    {
      var s := GetStorage(name);
      r := s.Time(name, Modified);
    }
  }
}
