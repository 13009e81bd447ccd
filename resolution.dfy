/** The location rule both facades apply in `get_storage`: a cache entry that
    is true means remote; a missing entry means "ask the remote store", and a
    hit there is written back to the cache as true; anything else means local. */
module Resolution {
  import opened Base

  function Lookup(entries: map<string, bool>, key: string): Option<bool> {
    if key in entries then Some(entries[key]) else None
  }

  /** The store `get_storage` returns, from the cache entry and, only when the
      entry is missing, whether the remote store has the file. */
  function Resolve(entry: Option<bool>, remoteHas: bool): Location {
    if entry == Some(true) then Remote
    else if entry.None? && remoteHas then Remote
    else Local
  }

  /** The cache after `get_storage`: a missing entry for a file the remote
      store has becomes true; nothing else changes. */
  function Heal(entries: map<string, bool>, key: string, remoteHas: bool): map<string, bool> {
    if key !in entries && remoteHas then entries[key := true] else entries
  }

  /** A true entry selects remote whatever the remote store holds, and the
      cache is left as it was. */
  lemma ConfirmedRemote(entries: map<string, bool>, key: string, has1: bool, has2: bool)
    requires Lookup(entries, key) == Some(true)
    ensures Resolve(Lookup(entries, key), has1) == Remote == Resolve(Lookup(entries, key), has2)
    ensures Heal(entries, key, has1) == entries
  {
  }

  /** A false entry (a save whose transfer has not succeeded) selects local
      whatever the remote store holds, and the cache is left as it was. */
  lemma PendingLocal(entries: map<string, bool>, key: string, has1: bool, has2: bool)
    requires Lookup(entries, key) == Some(false)
    ensures Resolve(Lookup(entries, key), has1) == Local == Resolve(Lookup(entries, key), has2)
    ensures Heal(entries, key, has1) == entries
  {
  }

  /** A missing entry for a file the remote store has selects remote and
      records true; a second resolution then answers remote from the cache. */
  lemma DiscoveredRemote(entries: map<string, bool>, key: string)
    requires key !in entries
    ensures Resolve(Lookup(entries, key), true) == Remote
    ensures Heal(entries, key, true) == entries[key := true]
    ensures Lookup(Heal(entries, key, true), key) == Some(true)
  {
  }

  /** A missing entry for a file the remote store lacks selects local and
      leaves the entry missing. */
  lemma UnknownLocal(entries: map<string, bool>, key: string)
    requires key !in entries
    ensures Resolve(Lookup(entries, key), false) == Local
    ensures Heal(entries, key, false) == entries
  {
  }

  /** Resolving twice in a row answers the same and changes the cache no more
      than resolving once. */
  lemma ResolveStable(entries: map<string, bool>, key: string, remoteHas: bool)
    ensures Resolve(Lookup(Heal(entries, key, remoteHas), key), remoteHas) == Resolve(Lookup(entries, key), remoteHas)
    ensures Heal(Heal(entries, key, remoteHas), key, remoteHas) == Heal(entries, key, remoteHas)
  {
  }

  /** Resolution only ever adds the resolved key, and only as true. */
  lemma HealOnlyConfirms(entries: map<string, bool>, key: string, remoteHas: bool, other: string)
    ensures Heal(entries, key, remoteHas) == entries || (key !in entries && Heal(entries, key, remoteHas) == entries[key := true])
    ensures other != key ==> Lookup(Heal(entries, key, remoteHas), other) == Lookup(entries, other)
  {
  }
}
