/** Types shared by every part of the model: optional values, results with the
    error the Python code raises, file contents, file names, option bags. */
module Base {

  datatype Option<T> = None | Some(value: T) {
    /** The argument if one was given, else the default (`x if x is not None
        else default`; for option maps also `x or default`, since `{}` is the
        only false map and the default is `{}`). */
    function GetOr(default: T): T {
      if Some? then value else default
    }
  }

  datatype Result<T, E> = Success(value: T) | Failure(error: E) {
    predicate IsFailure() { Failure? }
    function PropagateFailure<U>(): Result<U, E>
      requires Failure?
    {
      Failure(error)
    }
    function Extract(): T
      requires Success?
    {
      value
    }
  }

  /** File contents as the storage engines see them. */
  type Bytes = seq<bv8>

  /** Keyword options handed to a storage class (`local_options`, `remote_options`). */
  type Options = map<string, string>

  /** Python 2 `str` values are byte strings: every character is below 256. */
  predicate IsByteString(s: string) {
    forall i | 0 <= i < |s| :: s[i] as int < 256
  }

  /** A file name as the storage API receives it. */
  type Name = s: string | IsByteString(s)

  /** Which of the two stores is authoritative for a name. */
  datatype Location = Local | Remote

  /** Why Django's `ImproperlyConfigured` was raised. */
  datatype ConfigProblem =
    | NoImportPath                                   // import_attribute(None)
    | NotAModule(path: string)                       // no '.' in the dotted path
    | ModuleNotFound(moduleName: string)             // import_module raised ImportError
    | MissingAttribute(moduleName: string, attribute: string)
    | MissingBackend                                 // a backend argument resolved to None
    | BackendNotDottedPath                           // a backend given as a class or an instance

  /** Exceptions the core raises or lets through. */
  datatype PyError =
    | ImproperlyConfigured(problem: ConfigProblem)
    | FormatArgumentMismatch   // TypeError: not all arguments converted during string formatting
    | NotBooleanResult         // ValueError raised by Transfer.run
    | MaxRetriesExceeded       // Celery's MaxRetriesExceededError

  /** What a storage engine raises. */
  datatype StorageError = FileNotFound(name: string) | NotImplemented
}
