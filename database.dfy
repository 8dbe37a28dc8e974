/** `DatabaseManager` (valutatrade_hub/infra/database.py): a process-wide
    singleton that reads and writes the JSON files of the data directory
    through a read-through cache, guarded by one non-reentrant lock.

    The data directory is a map from file name to what a read of that file
    meets; JSON values are an arbitrary type `T`. The lock is a flag: a
    thread that tries to take the lock while it already holds it waits
    forever, which the model reports as `Blocked`. */
module Database {
  import opened Results

  /** What `load` raises: `DataNotFoundError`, the `JSONDecodeError` it
      re-raises with the file name in front of the decoder's message, and
      an error of `open` or of the UTF-8 decoding, which passes through
      unconverted (`kind` is its Python class). */
  datatype DbError =
    | DataNotFound(filename: string)
    | Undecodable(filename: string, reason: string)
    | ReadFailed(kind: string, reason: string)
  {
    function Message(): string
    {
      match this
      case DataNotFound(filename) => "Файл данных '" + filename + "' не найден"
      case Undecodable(filename, reason) => "Ошибка чтения файла " + filename + ": " + reason
      case ReadFailed(_, reason) => reason
    }
  }

  /** What reading one existing file gives: its JSON value, the decoder's
      complaint, or a failure to open it or to decode it as UTF-8 (a
      `PermissionError`, an `IsADirectoryError`, a `UnicodeDecodeError`). */
  datatype Stored<T> = Decodes(value: T) | Malformed(reason: string) | Unreadable(kind: string, reason: string)

  /** How a call ends: it returns, it raises, or it waits forever on the lock
      its own thread holds. */
  datatype Outcome<T> = Returned(value: T) | Raised(error: DbError) | Blocked

  /** The manager's state: the cache `{filename: data}`, the `_use_cache`
      flag, the files, and whether the lock is held. */
  datatype Db<T> = Db(cache: map<string, T>, cacheEnabled: bool, files: map<string, Stored<T>>, locked: bool)

  /** `load` answers from the cache: the call allows it, caching is on, and
      the file is cached. */
  predicate CacheHit<T>(db: Db<T>, filename: string, useCache: bool)
  {
    useCache && db.cacheEnabled && filename in db.cache
  }

  /** Every cached value is what the file holds now. */
  ghost predicate Coherent<T>(db: Db<T>)
  {
    forall f :: f in db.cache ==> f in db.files && db.files[f] == Decodes(db.cache[f])
  }

  /** With caching switched off the cache is empty. */
  predicate DisabledEmpty<T>(db: Db<T>)
  {
    !db.cacheEnabled ==> db.cache == map[]
  }

  /** `load(filename, use_cache)`: a cache hit answers without touching the
      file or the lock; an absent file raises before the lock is taken; a
      successful read is cached when caching is on. */
  function Loaded<T>(db: Db<T>, filename: string, useCache: bool): (r: (Outcome<T>, Db<T>))
    ensures r.1.files == db.files && r.1.cacheEnabled == db.cacheEnabled && r.1.locked == db.locked
    ensures CacheHit(db, filename, useCache) ==> r.0 == Returned(db.cache[filename]) && r.1 == db
    ensures !CacheHit(db, filename, useCache) ==> (r.0 == Raised(DataNotFound(filename)) <==> filename !in db.files)
    ensures r.0.Blocked? <==> !CacheHit(db, filename, useCache) && filename in db.files && db.locked
    ensures !r.0.Returned? ==> r.1 == db
    ensures !CacheHit(db, filename, useCache) && filename in db.files && !db.locked && !db.files[filename].Decodes? ==>
      r.0 == Raised(if db.files[filename].Malformed? then Undecodable(filename, db.files[filename].reason)
                    else ReadFailed(db.files[filename].kind, db.files[filename].reason))
    ensures r.0.Returned? && !CacheHit(db, filename, useCache) ==>
      db.files[filename] == Decodes(r.0.value)
      && r.1.cache == (if db.cacheEnabled then db.cache[filename := r.0.value] else db.cache)
  {
    if CacheHit(db, filename, useCache) then (Returned(db.cache[filename]), db)
    else if filename !in db.files then (Raised(DataNotFound(filename)), db)
    else if db.locked then (Blocked, db)
    else match db.files[filename]
      case Malformed(reason) => (Raised(Undecodable(filename, reason)), db)
      case Unreadable(kind, reason) => (Raised(ReadFailed(kind, reason)), db)
      case Decodes(v) => (Returned(v), db.(cache := if db.cacheEnabled then db.cache[filename := v] else db.cache))
  }

  /** `save(filename, data, invalidate_cache)`: the file is rewritten with
      `data`; with `invalidate_cache` and caching on, the cache entry becomes
      `data`, otherwise the cache is left alone. */
  function Saved<T>(db: Db<T>, filename: string, data: T, invalidateCache: bool): (r: (Outcome<()>, Db<T>))
    ensures r.0.Blocked? <==> db.locked
    ensures !db.locked ==> r.1.files == db.files[filename := Decodes(data)]
    ensures !db.locked && invalidateCache && db.cacheEnabled ==> r.1.cache == db.cache[filename := data]
    ensures !(invalidateCache && db.cacheEnabled) ==> r.1.cache == db.cache
    ensures r.1.cacheEnabled == db.cacheEnabled && r.1.locked == db.locked
  {
    if db.locked then (Blocked, db)
    else
      var cache := if invalidateCache && db.cacheEnabled then db.cache[filename := data] else db.cache;
      (Returned(()), db.(files := db.files[filename := Decodes(data)], cache := cache))
  }

  /** `clear_cache(filename)`: `None` empties the cache, a name drops that one
      entry; files and flags stay. */
  function Cleared<T>(db: Db<T>, filename: Option<string>): (r: (Outcome<()>, Db<T>))
    ensures r.0.Blocked? <==> db.locked
    ensures r.1.files == db.files && r.1.cacheEnabled == db.cacheEnabled && r.1.locked == db.locked
    ensures !db.locked && filename.None? ==> r.1.cache == map[]
    ensures !db.locked && filename.Some? ==>
      filename.value !in r.1.cache
      && forall f :: f != filename.value ==> (f in r.1.cache <==> f in db.cache)
    ensures forall f :: f in r.1.cache ==> f in db.cache && r.1.cache[f] == db.cache[f]
  {
    if db.locked then (Blocked, db)
    else match filename
      case None => (Returned(()), db.(cache := map[]))
      case Some(f) => (Returned(()), if f in db.cache then db.(cache := db.cache - {f}) else db)
  }

  /** `set_cache_enabled(enabled)`: the flag is set first; switching off then
      clears the whole cache. */
  function WithCacheEnabled<T>(db: Db<T>, enabled: bool): (r: (Outcome<()>, Db<T>))
    ensures r.1.cacheEnabled == enabled && r.1.files == db.files && r.1.locked == db.locked
    ensures enabled ==> r == (Returned(()), db.(cacheEnabled := true))
    ensures !enabled && !db.locked ==> r.1.cache == map[]
  {
    var flagged := db.(cacheEnabled := enabled);
    if enabled then (Returned(()), flagged) else Cleared(flagged, None)
  }

  /** `update(filename, updater, use_cache)` as written: it takes the lock,
      then calls `load`, which takes the same lock again on a cache miss, and
      `save`, which always does. */
  function UpdatedAsWritten<T>(db: Db<T>, filename: string, updater: T -> T, useCache: bool): (r: (Outcome<T>, Db<T>))
  {
    if db.locked then (Blocked, db)
    else
      var (data, held) := Loaded(db.(locked := true), filename, useCache);
      match data
      case Blocked => (Blocked, held)
      case Raised(e) => (Raised(e), held.(locked := false))
      case Returned(v) =>
        var (written, after) := Saved(held, filename, updater(v), true);
        if written.Blocked? then (Blocked, after) else (Returned(updater(v)), after.(locked := false))
  }

  /** `update` as intended: `load` and `save` run inside the one critical
      section `update` holds (as a re-entrant lock would allow), and the
      updated data is returned. */
  function Updated<T>(db: Db<T>, filename: string, updater: T -> T, useCache: bool): (r: (Outcome<T>, Db<T>))
    ensures r.1.cacheEnabled == db.cacheEnabled && r.1.locked == db.locked
    ensures !db.locked && r.0.Returned? ==> r.1.files == db.files[filename := Decodes(r.0.value)]
    ensures r.0.Raised? ==> r.1 == db
  {
    if db.locked then (Blocked, db)
    else
      var (data, loaded) := Loaded(db, filename, useCache);
      match data
      case Returned(v) => (Returned(updater(v)), Saved(loaded, filename, updater(v), true).1)
      case _ => (data, loaded)
  }

  // ---------------------------------------------------------------------------
  // Properties of the cache
  // ---------------------------------------------------------------------------

  /** A coherent cache is invisible: `load` answers the same with and
      without it. */
  lemma CacheTransparent<T>(db: Db<T>, filename: string)
    requires Coherent(db) && !db.locked
    ensures Loaded(db, filename, true).0 == Loaded(db, filename, false).0
  {
    if CacheHit(db, filename, true) {
      assert db.files[filename] == Decodes(db.cache[filename]);
    }
  }

  /** `load` keeps the cache coherent. */
  lemma LoadKeepsCoherent<T>(db: Db<T>, filename: string, useCache: bool)
    requires Coherent(db)
    ensures Coherent(Loaded(db, filename, useCache).1)
  {
  }

  /** `save` with `invalidate_cache` keeps the cache coherent; without it the
      cache stays coherent only when the file was not cached. With caching off
      `save` does not touch the cache, which is then empty. */
  lemma SaveKeepsCoherent<T>(db: Db<T>, filename: string, data: T, invalidateCache: bool)
    requires Coherent(db) && DisabledEmpty(db)
    requires invalidateCache || filename !in db.cache
    ensures Coherent(Saved(db, filename, data, invalidateCache).1)
  {
  }

  /** `clear_cache` and `set_cache_enabled` keep the cache coherent. */
  lemma ClearKeepsCoherent<T>(db: Db<T>, filename: Option<string>, enabled: bool)
    requires Coherent(db)
    ensures Coherent(Cleared(db, filename).1)
    ensures Coherent(WithCacheEnabled(db, enabled).1)
  {
  }

  /** `update` keeps the cache coherent (caching being off means an empty
      cache, as `set_cache_enabled` leaves it). */
  lemma UpdateKeepsCoherent<T>(db: Db<T>, filename: string, updater: T -> T, useCache: bool)
    requires Coherent(db) && DisabledEmpty(db)
    ensures Coherent(Updated(db, filename, updater, useCache).1)
  {
    if !db.locked {
      var (data, loaded) := Loaded(db, filename, useCache);
      LoadKeepsCoherent(db, filename, useCache);
      if data.Returned? {
        SaveKeepsCoherent(loaded, filename, updater(data.value), true);
      }
    }
  }

  /** After `save(f, d)` a `load(f)` returns `d`, unless the save kept a
      stale cache entry that the load then reads. */
  lemma LoadAfterSave<T>(db: Db<T>, filename: string, data: T, invalidateCache: bool, useCache: bool)
    requires !db.locked
    requires invalidateCache || !CacheHit(db, filename, useCache)
    ensures Loaded(Saved(db, filename, data, invalidateCache).1, filename, useCache).0 == Returned(data)
  {
  }

  /** `save(f, d, invalidate_cache=False)` on a cached file leaves the old
      value in the cache, and `load(f)` keeps returning it. */
  lemma SaveWithoutInvalidateIsStale<T>(db: Db<T>, filename: string, data: T)
    requires !db.locked && db.cacheEnabled && filename in db.cache
    ensures Loaded(Saved(db, filename, data, false).1, filename, true).0 == Returned(db.cache[filename])
  {
  }

  /** With caching off, `load` never answers from or fills the cache, and the
      `use_cache` argument makes no difference. */
  lemma LoadWhileDisabled<T>(db: Db<T>, filename: string, useCache: bool)
    requires !db.cacheEnabled
    ensures Loaded(db, filename, useCache).1 == db
    ensures Loaded(db, filename, useCache).0 == Loaded(db, filename, false).0
  {
  }

  /** Switching caching off leaves an empty cache, and no later operation
      fills it while it stays off. */
  lemma DisabledStaysEmpty<T>(db: Db<T>, filename: string, data: T, updater: T -> T, useCache: bool, clear: Option<string>)
    requires DisabledEmpty(db)
    ensures !db.locked ==> WithCacheEnabled(db, false).1.cache == map[]
    ensures DisabledEmpty(Loaded(db, filename, useCache).1)
    ensures DisabledEmpty(Saved(db, filename, data, true).1)
    ensures DisabledEmpty(Cleared(db, clear).1)
    ensures DisabledEmpty(Updated(db, filename, updater, useCache).1)
  {
  }

  /** `update` as written never returns its data: a missing, uncached file
      raises `DataNotFoundError`, and every other call waits forever on the
      lock it already holds. */
  lemma {:induction false} UpdateAsWrittenNeverReturns<T>(db: Db<T>, filename: string, updater: T -> T, useCache: bool)
    requires !db.locked
    ensures !UpdatedAsWritten(db, filename, updater, useCache).0.Returned?
    ensures UpdatedAsWritten(db, filename, updater, useCache).0.Blocked?
      <==> CacheHit(db, filename, useCache) || filename in db.files
    ensures UpdatedAsWritten(db, filename, updater, useCache).0.Raised? ==>
      UpdatedAsWritten(db, filename, updater, useCache) == (Raised(DataNotFound(filename)), db)
  {
    var held := db.(locked := true);
    assert CacheHit(held, filename, useCache) == CacheHit(db, filename, useCache);
    var (data, after) := Loaded(held, filename, useCache);
    if data.Returned? {
      assert after.locked;
    }
  }

  /** `update` as intended returns `updater(load(f))`, writes it to the file,
      and a later `load` returns it. */
  lemma UpdateReturnsAndPersists<T>(db: Db<T>, filename: string, updater: T -> T, useCache: bool, useCacheLater: bool)
    requires !db.locked && Loaded(db, filename, useCache).0.Returned?
    ensures var v := Loaded(db, filename, useCache).0.value;
      var (r, after) := Updated(db, filename, updater, useCache);
      r == Returned(updater(v))
      && after.files[filename] == Decodes(updater(v))
      && Loaded(after, filename, useCacheLater).0 == Returned(updater(v))
  {
    var (data, loaded) := Loaded(db, filename, useCache);
    LoadAfterSave(loaded, filename, updater(data.value), true, useCacheLater);
  }

  /** `update` as intended raises what `load` raises, and changes nothing. */
  lemma UpdatePropagatesLoadError<T>(db: Db<T>, filename: string, updater: T -> T, useCache: bool)
    requires !db.locked && Loaded(db, filename, useCache).0.Raised?
    ensures Updated(db, filename, updater, useCache) == (Loaded(db, filename, useCache).0, db)
  {
  }

  // ---------------------------------------------------------------------------
  // The manager object
  // ---------------------------------------------------------------------------

  /** The one `DatabaseManager` instance and what it holds. */
  class DatabaseManager<T> {
    var cache: map<string, T>
    var cacheEnabled: bool
    var files: map<string, Stored<T>>
    var locked: bool

    function State(): Db<T>
      reads this
    {
      Db(cache, cacheEnabled, files, locked)
    }

    /** `__init__` on first creation: an empty cache, caching on, the lock
        free; `files` is what the data directory holds. */
    constructor(files: map<string, Stored<T>>)
      ensures State() == Db(map[], true, files, false)
      ensures Coherent(State()) && DisabledEmpty(State())
    {
      cache := map[];
      cacheEnabled := true;
      this.files := files;
      locked := false;
    }

    /** `load`. */
    method Load(filename: string, useCache: bool) returns (r: Outcome<T>)
      modifies this
      ensures (r, State()) == Loaded(old(State()), filename, useCache)
    {
      if useCache && cacheEnabled && filename in cache {
        return Returned(cache[filename]);
      }
      if filename !in files {
        return Raised(DataNotFound(filename));
      }
      if locked {
        return Blocked;
      }
      locked := true;
      match files[filename]
      case Malformed(reason) =>
        locked := false;
        return Raised(Undecodable(filename, reason));
      case Unreadable(kind, reason) =>
        locked := false;
        return Raised(ReadFailed(kind, reason));
      case Decodes(v) =>
        if cacheEnabled {
          cache := cache[filename := v];
        }
        locked := false;
        return Returned(v);
    }

    /** `save`. */
    method Save(filename: string, data: T, invalidateCache: bool) returns (r: Outcome<()>)
      modifies this
      ensures (r, State()) == Saved(old(State()), filename, data, invalidateCache)
    {
      if locked {
        return Blocked;
      }
      locked := true;
      files := files[filename := Decodes(data)];
      if invalidateCache && cacheEnabled {
        cache := cache[filename := data];
      }
      locked := false;
      return Returned(());
    }

    /** `update` as written: `load` and `save` are called with the lock held. */
    method UpdateAsWritten(filename: string, updater: T -> T, useCache: bool) returns (r: Outcome<T>)
      modifies this
      ensures (r, State()) == UpdatedAsWritten(old(State()), filename, updater, useCache)
    {
      if locked {
        return Blocked;
      }
      locked := true;
      var data := Load(filename, useCache);
      match data
      case Blocked =>
        return Blocked;
      case Raised(e) =>
        locked := false;
        return Raised(e);
      case Returned(v) =>
        var updated := updater(v);
        var written := Save(filename, updated, true);
        // `save` waits for the lock this call holds.
        assert written.Blocked?;
        return Blocked;
    }

    /** `update` as intended: read, apply `updater`, write back, return the
        updated data, all in one critical section. */
    method Update(filename: string, updater: T -> T, useCache: bool) returns (r: Outcome<T>)
      modifies this
      ensures (r, State()) == Updated(old(State()), filename, updater, useCache)
    {
      if locked {
        return Blocked;
      }
      var data := Load(filename, useCache);
      if data.Returned? {
        var updated := updater(data.value);
        var _ := Save(filename, updated, true);
        return Returned(updated);
      }
      return data;
    }

    /** `clear_cache`. */
    method ClearCache(filename: Option<string>) returns (r: Outcome<()>)
      modifies this
      ensures (r, State()) == Cleared(old(State()), filename)
    {
      if locked {
        return Blocked;
      }
      match filename {
        case None =>
          cache := map[];
        case Some(f) =>
          if f in cache {
            cache := cache - {f};
          }
      }
      return Returned(());
    }

    /** `set_cache_enabled`. */
    method SetCacheEnabled(enabled: bool) returns (r: Outcome<()>)
      modifies this
      ensures (r, State()) == WithCacheEnabled(old(State()), enabled)
    {
      cacheEnabled := enabled;
      if !enabled {
        r := ClearCache(None);
      } else {
        r := Returned(());
      }
    }
  }

  /** The class object `DatabaseManager`: `_instance`, which `__new__` fills
      on the first call and returns on every call. */
  class ManagerClass<T> {
    var instance: DatabaseManager?<T>

    constructor()
      ensures instance == null
    {
      instance := null;
    }

    /** `DatabaseManager()` (and `get_db()`): the first call creates and
        initialises the instance; later calls return that same object and
        `__init__` leaves it untouched. */
    method Call(files: map<string, Stored<T>>) returns (db: DatabaseManager<T>)
      modifies this
      ensures instance == db
      ensures old(instance) != null ==> db == old(instance) && db.State() == old(db.State())
      ensures old(instance) == null ==> fresh(db) && db.State() == Db(map[], true, files, false)
    {
      if instance == null {
        db := new DatabaseManager(files);
        instance := db;
      } else {
        db := instance;
      }
    }
  }
}
