/**
 * The validation cache (semgrepai/cache.py): a key -> result map that is
 * written through to `validation_cache.json` on every `set`.
 *
 * The file is an object of its own (`CacheFile`) so that two cache
 * instances over the same directory share it, which is what lets the
 * restart round trip be stated. There is no eviction, no hit/miss counting
 * and no hashing: the size limit and cleanup interval are stored and never
 * used.
 */
module Cache {
  import opened Common

  /** What the cache file holds: a JSON object, or text that does not parse as JSON. */
  datatype FileContent = JsonObject(entries: map<string, Value>) | Malformed

  /** `cache_dir / "validation_cache.json"`; `None` while the file does not exist. */
  class CacheFile {
    var content: Option<FileContent>

    constructor(content: Option<FileContent>)
      ensures this.content == content
    {
      this.content := content;
    }
  }

  /** `_load_cache`: a missing file and a file that is not JSON both give an empty cache. */
  function Loaded(content: Option<FileContent>): (m: map<string, Value>)
    ensures content.None? || content == Some(Malformed) ==> m == map[]
    ensures content.Some? && content.value.JsonObject? ==> m == content.value.entries
  {
    match content
    case None => map[]
    case Some(Malformed) => map[]
    case Some(JsonObject(entries)) => entries
  }

  class ValidationCache {
    const file: CacheFile
    const maxEntries: int
    const autoCleanupInterval: int
    /** Set to 0 at construction and never updated. */
    const operationCount: int
    var cache: map<string, Value>

    constructor(file: CacheFile, maxEntries: int, autoCleanupInterval: int)
      ensures this.file == file && this.maxEntries == maxEntries
      ensures this.autoCleanupInterval == autoCleanupInterval && operationCount == 0
      ensures cache == Loaded(file.content)
    {
      this.file := file;
      this.maxEntries := maxEntries;
      this.autoCleanupInterval := autoCleanupInterval;
      operationCount := 0;
      cache := Loaded(file.content);
    }

    /** `get`: the stored result for a present key, None otherwise. */
    function Get(key: string): (r: Option<Value>)
      reads this
      ensures r.Some? <==> key in cache
      ensures r.Some? ==> r.value == cache[key]
    {
      if key in cache then Some(cache[key]) else None
    }

    /** `_save_cache`: the whole map replaces the file's content. */
    method Save()
      modifies file
      ensures file.content == Some(JsonObject(cache))
    {
      file.content := Some(JsonObject(cache));
    }

    /** `set`: stores the result under the key, keeps every other key, and writes through. */
    method Set(key: string, value: Value)
      modifies this, file
      ensures cache == old(cache)[key := value]
      ensures file.content == Some(JsonObject(cache))
    {
      cache := cache[key := value];
      Save();
    }

    /** `clear`: empties the map and deletes the file if it exists. */
    method Clear()
      modifies this, file
      ensures cache == map[] && file.content == None
    {
      cache := map[];
      if file.content.Some? {
        file.content := None;
      }
    }
  }

  /** A result that was set is returned by `get`, a second `set` on the key overwrites it, other keys keep theirs. */
  method SetThenGet(c: ValidationCache, key: string, first: Value, second: Value, other: string)
    returns (afterFirst: Option<Value>, afterSecond: Option<Value>)
    modifies c, c.file
    ensures afterFirst == Some(first) && afterSecond == Some(second)
    ensures other != key ==> c.Get(other) == old(c.Get(other))
  {
    c.Set(key, first);
    afterFirst := c.Get(key);
    c.Set(key, second);
    afterSecond := c.Get(key);
  }

  /** A fresh instance over the same file sees what an earlier instance set. */
  method RestartSeesSetValue(file: CacheFile, key: string, value: Value) returns (seen: Option<Value>)
    modifies file
    ensures seen == Some(value)
  {
    var c := new ValidationCache(file, 10000, 100);
    c.Set(key, value);
    var again := new ValidationCache(file, 10000, 100);
    seen := again.Get(key);
  }

  /** After `clear`, both this instance and a fresh one over the same file miss every key. */
  method ClearForgetsEverything(c: ValidationCache, key: string) returns (now: Option<Value>, afterRestart: Option<Value>)
    modifies c, c.file
    ensures now == None && afterRestart == None
  {
    c.Clear();
    now := c.Get(key);
    var again := new ValidationCache(c.file, 10000, 100);
    afterRestart := again.Get(key);
  }
}
