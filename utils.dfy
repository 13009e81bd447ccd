/** `queued_storage.utils.import_attribute`: split a dotted path at its last
    dot and look the attribute up. Importing a module is replaced by a lookup
    in a registry that maps a module name to the attributes it defines. */
module Utils {
  import opened Base

  /** Module name -> attribute name -> the attribute's value. */
  type Registry<V> = map<string, map<string, V>>

  /** `s.rindex('.')`, with `None` where Python raises `ValueError`. */
  function LastDot(s: string): (r: Option<nat>)
    ensures r.None? <==> '.' !in s
    ensures r.Some? ==> r.value < |s| && s[r.value] == '.' && '.' !in s[r.value + 1..]
    decreases |s|
  {
    if s == [] then None
    else if s[|s| - 1] == '.' then Some(|s| - 1)
    else
      var init := s[..|s| - 1];
      assert s == init + [s[|s| - 1]];
      var r := LastDot(init);
      assert r.Some? ==> s[r.value + 1..] == init[r.value + 1..] + [s[|s| - 1]];
      r
  }

  /** `import_attribute(import_path, options)`; `options` is accepted and ignored. */
  function ImportAttribute<V>(registry: Registry<V>, importPath: Option<string>, options: Option<Options>): (r: Result<V, PyError>)
    ensures importPath.None? ==> r == Failure(ImproperlyConfigured(NoImportPath))
    ensures importPath.Some? && '.' !in importPath.value ==>
              r == Failure(ImproperlyConfigured(NotAModule(importPath.value)))
    ensures r.Failure? ==> r.error.ImproperlyConfigured?
  {
    match importPath
    case None => Failure(ImproperlyConfigured(NoImportPath))
    case Some(path) =>
      match LastDot(path)
      case None => Failure(ImproperlyConfigured(NotAModule(path)))
      case Some(dot) =>
        var moduleName, className := path[..dot], path[dot + 1..];
        if moduleName !in registry then Failure(ImproperlyConfigured(ModuleNotFound(moduleName)))
        else if className !in registry[moduleName] then
          Failure(ImproperlyConfigured(MissingAttribute(moduleName, className)))
        else Success(registry[moduleName][className])
  }

  /** A path `m.c` whose last segment `c` has no dot is split into exactly `m`
      and `c`, and the result is the registered attribute or the error for
      whichever lookup fails. */
  lemma ImportAttributeSplit<V>(registry: Registry<V>, m: string, c: string, options: Option<Options>)
    requires '.' !in c
    ensures ImportAttribute(registry, Some(m + "." + c), options) ==
              if m !in registry then Failure(ImproperlyConfigured(ModuleNotFound(m)))
              else if c !in registry[m] then Failure(ImproperlyConfigured(MissingAttribute(m, c)))
              else Success(registry[m][c])
  {
    var path := m + "." + c;
    var r := LastDot(path);
    assert path[|m|] == '.';
    assert r.Some?;
    var dot := r.value;
    assert dot == |m|;
    assert path[..dot] == m;
    assert path[dot + 1..] == c;
  }

  /** On success, the dotted path is the module name, a dot and an attribute
      name without a dot, and the value is that registered attribute. */
  lemma ImportAttributeSuccess<V>(registry: Registry<V>, path: string, options: Option<Options>)
    requires ImportAttribute(registry, Some(path), options).Success?
    ensures exists m, c :: path == m + "." + c && '.' !in c && m in registry && c in registry[m] &&
                           ImportAttribute(registry, Some(path), options).value == registry[m][c]
  {
    var dot := LastDot(path).value;
    var m, c := path[..dot], path[dot + 1..];
    assert path == m + "." + c;
    ImportAttributeSplit(registry, m, c, options);
  }

  /** The `options` argument has no effect. */
  lemma ImportIgnoresOptions<V>(registry: Registry<V>, importPath: Option<string>, o1: Option<Options>, o2: Option<Options>)
    ensures ImportAttribute(registry, importPath, o1) == ImportAttribute(registry, importPath, o2)
  {
  }
}
