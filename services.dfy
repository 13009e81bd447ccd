/** The collaborators the core drives but does not implement: a storage engine
    (Django's `Storage` API: open, save, delete, exists, listdir, size, url,
    path, name policies, timestamps) and the shared Django cache. A store is
    an object because the facade and the transfer worker reach the same
    underlying files. What is particular to each engine (how it picks a free
    name, its URLs, its paths, its directory listing, its clocks) is an
    `Engine` value of functions supplied from outside. */
module Services {
  import opened Base

  datatype TimeKind = Accessed | Created | Modified

  datatype Engine = Engine(
    availableName: (Name, set<string>) -> Name,                     // get_available_name, given the names in use
    validName: Name -> Name,                                        // get_valid_name
    url: Name -> string,                                            // url
    path: Name -> Option<string>,                                   // path; None where the engine raises NotImplementedError
    listing: (string, set<string>) -> (seq<string>, seq<string>),   // listdir: (directories, files)
    stamp: (Name, TimeKind) -> int)                                 // accessed/created/modified time

  /** Django's contract for `get_available_name`: a name that is not taken is
      returned unchanged. */
  ghost predicate KeepsFreeNames(e: Engine) {
    forall n: Name, used: set<string> {:trigger e.availableName(n, used)} ::
      n !in used ==> e.availableName(n, used) == n
  }

  /** A storage engine instance over its files. */
  class Store {
    var files: map<string, Bytes>
    const engine: Engine

    constructor (engine: Engine, files: map<string, Bytes>)
      ensures this.engine == engine && this.files == files
    {
      this.engine := engine;
      this.files := files;
    }

    function Exists(name: string): bool
      reads this
    {
      name in files
    }

    /** Opening for reading; a missing file raises. The mode is passed on and
        does not change what is read. */
    function Open(name: string, mode: string): Result<Bytes, StorageError>
      reads this
    {
      if name in files then Success(files[name]) else Failure(FileNotFound(name))
    }

    function AvailableName(name: Name): Name
      reads this
    {
      engine.availableName(name, files.Keys)
    }

    function ValidName(name: Name): Name {
      engine.validName(name)
    }

    /** `save` stores the content under the available name and returns that name. */
    method Save(name: Name, content: Bytes) returns (saved: Name)
      modifies this
      ensures saved == old(AvailableName(name))
      ensures files == old(files)[saved := content]
    {
      saved := AvailableName(name);
      files := files[saved := content];
    }

    /** Deleting a missing file is not an error. */
    method Delete(name: string)
      modifies this
      ensures files == old(files) - {name}
    {
      files := files - {name};
    }

    function Size(name: string): Result<nat, StorageError>
      reads this
    {
      if name in files then Success(|files[name]|) else Failure(FileNotFound(name))
    }

    function Url(name: Name): string {
      engine.url(name)
    }

    function Path(name: Name): Result<string, StorageError> {
      match engine.path(name)
      case Some(p) => Success(p)
      case None => Failure(NotImplemented)
    }

    function ListDir(dir: string): (seq<string>, seq<string>)
      reads this
    {
      engine.listing(dir, files.Keys)
    }

    function Time(name: Name, kind: TimeKind): Result<int, StorageError>
      reads this
    {
      if name in files then Success(engine.stamp(name, kind)) else Failure(FileNotFound(name))
    }
  }

  /** The Django cache: a key is absent or holds a boolean. */
  class Cache {
    var entries: map<string, bool>

    constructor (entries: map<string, bool>)
      ensures this.entries == entries
    {
      this.entries := entries;
    }

    function Get(key: string): Option<bool>
      reads this
    {
      if key in entries then Some(entries[key]) else None
    }

    method Set(key: string, value: bool)
      modifies this
      ensures entries == old(entries)[key := value]
    {
      entries := entries[key := value];
    }
  }
}
