/**
 * The file-backed response cache (`CacheManager`). Each key is stored in the
 * file named by its md5 digest as a record {timestamp, value, key_metadata};
 * a read returns the value unless the record is older than the expiry.
 * The directory is the map `files` from digest to file contents; md5 is a
 * function given to the constructor and the clock is the `now` argument.
 */
module Cache {
  import opened Wrappers
  import opened JsonValue

  /** `CacheManager.__init__`'s default `expiry_seconds`: 24 hours. */
  const DEFAULT_EXPIRY_SECONDS: int := 86400

  /** `set` keeps this many characters of the key for debugging. */
  const KEY_METADATA_LENGTH: nat := 100

  /** The hex digest that names a cache file. */
  type Digest = string

  /**
   * The JSON record in one cache file. Records that `set` writes have every
   * field; a file that reached the directory some other way may lack some.
   */
  datatype Entry = Entry(timestamp: Option<int>, value: Option<Json>, keyMetadata: string)

  /** A cache file either holds a record or cannot be decoded. */
  datatype CacheFile = Stored(entry: Entry) | Unreadable

  /**
   * How the file write in `set` ends: written; `open` failed (nothing
   * changes); or `json.dump` failed after `open(path, 'w')` had already
   * truncated the file.
   */
  datatype WriteOutcome = Written | OpenFailed | DumpFailed

  /** What `get` returns for the file at its path, `None` standing for a missing file. */
  function ReadFile(file: Option<CacheFile>, now: int, expiry: int): Option<Json>
  {
    match file
    case None => None
    case Some(Unreadable) => None
    case Some(Stored(e)) =>
      if now - e.timestamp.GetOr(0) > expiry then None
      else if e.value == Some(JNull) then None
      else e.value
  }

  /** `get(key)` against the directory `files` at time `now`. */
  function Lookup(files: map<Digest, CacheFile>, md5: string -> Digest, key: string, now: int, expiry: int): Option<Json>
  {
    ReadFile(if md5(key) in files then Some(files[md5(key)]) else None, now, expiry)
  }

  /** The record `set(key, value)` writes at time `now`. */
  function NewEntry(key: string, value: Json, now: int): (e: Entry)
    ensures |e.keyMetadata| <= KEY_METADATA_LENGTH && |e.keyMetadata| <= |key|
    ensures e.keyMetadata == key[..|e.keyMetadata|]
    ensures |key| <= KEY_METADATA_LENGTH ==> e.keyMetadata == key
  {
    Entry(Some(now), Some(value), if |key| <= KEY_METADATA_LENGTH then key else key[..KEY_METADATA_LENGTH])
  }

  /** The directory after `set(key, value)` at time `now`, write failures swallowed. */
  function Store(files: map<Digest, CacheFile>, md5: string -> Digest, key: string, value: Json, now: int,
                 outcome: WriteOutcome): map<Digest, CacheFile>
  {
    match outcome
    case Written => files[md5(key) := Stored(NewEntry(key, value, now))]
    case OpenFailed => files
    case DumpFailed => files[md5(key) := Unreadable]
  }

  /** What `get` yields for a stored value: JSON null reads back as `None`. */
  function AsRead(value: Json): Option<Json> {
    if value == JNull then None else Some(value)
  }

  class CacheManager {
    const expirySeconds: int
    const md5: string -> Digest
    var files: map<Digest, CacheFile>

    /** `CacheManager(cache_dir, expiry_seconds)` over a directory that already holds `onDisk`. */
    constructor (expirySeconds: int, md5: string -> Digest, onDisk: map<Digest, CacheFile>)
      ensures this.expirySeconds == expirySeconds && this.md5 == md5 && files == onDisk
    {
      this.expirySeconds := expirySeconds;
      this.md5 := md5;
      files := onDisk;
    }

    /** `_get_cache_path`: the file is named by the key's digest. */
    function CachePath(key: string): Digest
    {
      md5(key)
    }

    /** `get`: reads the file named by the key's digest; changes nothing. */
    method Get(key: string, now: int) returns (r: Option<Json>)
      ensures r == Lookup(files, md5, key, now, expirySeconds)
      ensures r.Some? ==> md5(key) in files && files[md5(key)].Stored?
      ensures r.Some? ==> now - files[md5(key)].entry.timestamp.GetOr(0) <= expirySeconds
      ensures r.Some? ==> r.value != JNull && files[md5(key)].entry.value == r
    {
      var path := CachePath(key);
      if path !in files {
        return None;
      }
      match files[path]
      case Unreadable =>
        r := None;
      case Stored(e) =>
        var timestamp := if e.timestamp.Some? then e.timestamp.value else 0;
        if now - timestamp > expirySeconds {
          r := None;
        } else if e.value == Some(JNull) {
          r := None;
        } else {
          r := e.value;
        }
    }

    /** `set`: overwrites the file named by the key's digest; errors are swallowed. */
    method Set(key: string, value: Json, now: int, outcome: WriteOutcome)
      modifies this
      ensures files == Store(old(files), md5, key, value, now, outcome)
    {
      var path := CachePath(key);
      match outcome
      case Written =>
        files := files[path := Stored(NewEntry(key, value, now))];
      case OpenFailed =>
      case DumpFailed =>
        files := files[path := Unreadable];
    }
  }

  // ---------------------------------------------------------------------------
  // Properties of get and set

  /** A value just set is read back until it is more than `expiry` seconds old. */
  lemma GetAfterSet(files: map<Digest, CacheFile>, md5: string -> Digest, key: string, value: Json,
                    t: int, now: int, expiry: int)
    requires now - t <= expiry
    ensures Lookup(Store(files, md5, key, value, t, Written), md5, key, now, expiry) == AsRead(value)
  {
  }

  /** An entry exactly `expiry` seconds old is still returned: the expiry test is strict. */
  lemma ExpiryBoundary(files: map<Digest, CacheFile>, md5: string -> Digest, key: string, value: Json,
                       t: int, expiry: int)
    ensures Lookup(Store(files, md5, key, value, t, Written), md5, key, t + expiry, expiry) == AsRead(value)
  {
  }

  /** Once an entry is more than `expiry` seconds old, `get` returns `None`, although the file remains. */
  lemma GetAfterExpiry(files: map<Digest, CacheFile>, md5: string -> Digest, key: string, now: int, expiry: int)
    requires md5(key) in files && files[md5(key)].Stored?
    requires now - files[md5(key)].entry.timestamp.GetOr(0) > expiry
    ensures Lookup(files, md5, key, now, expiry) == None
  {
  }

  /** A record without a timestamp counts as written at time 0. */
  lemma MissingTimestampIsZero(value: Json, meta: string, now: int, expiry: int)
    ensures ReadFile(Some(Stored(Entry(None, Some(value), meta))), now, expiry)
         == (if now > expiry then None else AsRead(value))
  {
  }

  /** A key that was never set (no file under its digest) reads as `None`. */
  lemma GetNeverSet(files: map<Digest, CacheFile>, md5: string -> Digest, key: string, now: int, expiry: int)
    requires md5(key) !in files
    ensures Lookup(files, md5, key, now, expiry) == None
  {
  }

  /** A second `set` replaces the first entirely: value and timestamp. */
  lemma SetOverwrites(files: map<Digest, CacheFile>, md5: string -> Digest, key: string,
                      v1: Json, t1: int, v2: Json, t2: int)
    ensures Store(Store(files, md5, key, v1, t1, Written), md5, key, v2, t2, Written)
         == Store(files, md5, key, v2, t2, Written)
  {
  }

  /** Setting a key whose digest differs leaves `get` of another key unchanged, whatever the write did. */
  lemma SetOtherDigest(files: map<Digest, CacheFile>, md5: string -> Digest, k1: string, k2: string,
                       value: Json, t: int, outcome: WriteOutcome, now: int, expiry: int)
    requires md5(k1) != md5(k2)
    ensures Lookup(Store(files, md5, k1, value, t, outcome), md5, k2, now, expiry) == Lookup(files, md5, k2, now, expiry)
  {
  }

  /** Keys with equal digests share one file: setting one is seen through the other. */
  lemma SetSameDigest(files: map<Digest, CacheFile>, md5: string -> Digest, k1: string, k2: string,
                      value: Json, t: int, now: int, expiry: int)
    requires md5(k1) == md5(k2) && now - t <= expiry
    ensures Lookup(Store(files, md5, k1, value, t, Written), md5, k2, now, expiry) == AsRead(value)
  {
  }

  /** A failed write never makes `get` return a value it did not return before. */
  lemma FailedSetAddsNothing(files: map<Digest, CacheFile>, md5: string -> Digest, key: string, k: string,
                             value: Json, t: int, outcome: WriteOutcome, now: int, expiry: int)
    requires outcome != Written
    ensures var after := Lookup(Store(files, md5, key, value, t, outcome), md5, k, now, expiry);
            after == None || after == Lookup(files, md5, k, now, expiry)
  {
  }
}
