/**
  The local cache of the Sync API's data: its JSON form, the manager that
  loads, saves and clears the cache file, and the expiry test. The file is the
  manager's state: absent, or holding text that is or is not valid JSON. The
  clock and failures of the filesystem are parameters.
*/
module SyncCache {
  import opened Wrappers
  import opened Ints
  import opened Json
  import opened Errors
  import opened SyncModels

  datatype CacheData = CacheData(
    projects: seq<SyncProject>,
    items: seq<SyncTask>,
    sections: seq<SyncSection>,
    labels: seq<SyncLabel>,
    filters: seq<SyncFilter>)

  /** The cached data, the sync token it was read with and when it was cached, in seconds since the epoch. */
  datatype Cache = Cache(syncToken: string, cachedAt: i64, data: CacheData)

  // ---------------------------------------------------------------- JSON form

  function EncodeCacheData(d: CacheData): (r: Json)
    ensures r.JObject? && r.fields.Keys == {"projects", "items", "sections", "labels", "filters"}
  {
    JObject(map[
      "projects" := EncodeAll(d.projects, EncodeProject),
      "items" := EncodeAll(d.items, EncodeTask),
      "sections" := EncodeAll(d.sections, EncodeSection),
      "labels" := EncodeAll(d.labels, EncodeLabel),
      "filters" := EncodeAll(d.filters, EncodeFilter)])
  }

  function EncodeCache(c: Cache): (r: Json)
    ensures r.JObject? && r.fields.Keys == {"sync_token", "cached_at", "data"}
  {
    JObject(map[
      "sync_token" := JString(c.syncToken),
      "cached_at" := JNumber(c.cachedAt),
      "data" := EncodeCacheData(c.data)])
  }

  /** No field of the cache has a default: every one must be present. */
  function DecodeCacheData(j: Json): (r: Decoded<CacheData>)
    ensures r.Decoded? ==> (j.JObject? && "projects" in j.fields && "items" in j.fields
      && "sections" in j.fields && "labels" in j.fields && "filters" in j.fields)
  {
    if !j.JObject? then Malformed(InvalidType(j, "struct CacheData"))
    else
      var m := j.fields;
      var projects :- Required(m, "projects", (v: Json) => AsSeq(v, DecodeProject));
      var items :- Required(m, "items", (v: Json) => AsSeq(v, DecodeTask));
      var sections :- Required(m, "sections", (v: Json) => AsSeq(v, DecodeSection));
      var labels :- Required(m, "labels", (v: Json) => AsSeq(v, DecodeLabel));
      var filters :- Required(m, "filters", (v: Json) => AsSeq(v, DecodeFilter));
      Decoded(CacheData(projects, items, sections, labels, filters))
  }

  function DecodeCache(j: Json): (r: Decoded<Cache>)
    ensures r.Decoded? ==> (j.JObject? && "sync_token" in j.fields && j.fields["sync_token"] == JString(r.value.syncToken)
      && "cached_at" in j.fields && j.fields["cached_at"] == JNumber(r.value.cachedAt))
  {
    if !j.JObject? then Malformed(InvalidType(j, "struct Cache"))
    else
      var m := j.fields;
      var syncToken :- Required(m, "sync_token", AsString);
      var cachedAt :- Required(m, "cached_at", AsI64);
      var data :- Required(m, "data", DecodeCacheData);
      Decoded(Cache(syncToken, cachedAt, data))
  }

  /** What `load` makes of the text of an existing cache file. */
  function ReadCache(content: JsonParse): (r: Result<Option<Cache>>)
    ensures r.Ok? <==> content.Parsed? && DecodeCache(content.value).Decoded?
    ensures r.Ok? ==> r.value == Some(DecodeCache(content.value).value)
    ensures r.Err? ==> (r.error.InvalidInput? && |r.error.msg| >= |"Failed to parse cache: "|
      && r.error.msg[..|"Failed to parse cache: "|] == "Failed to parse cache: ")
  {
    match content
    case SyntaxError(reason) => Err(InvalidInput("Failed to parse cache: " + reason))
    case Parsed(j) =>
      match DecodeCache(j)
      case Malformed(reason) => Err(InvalidInput("Failed to parse cache: " + reason))
      case Decoded(c) => Ok(Some(c))
  }

  // ---------------------------------------------------------------- round trip

  /** The sequences of the cache survive encoding and decoding element by element. */
  lemma CacheDataSequences(d: CacheData)
    ensures AsSeq(EncodeAll(d.projects, EncodeProject), DecodeProject) == Decoded(d.projects)
    ensures AsSeq(EncodeAll(d.items, EncodeTask), DecodeTask) == Decoded(d.items)
    ensures AsSeq(EncodeAll(d.sections, EncodeSection), DecodeSection) == Decoded(d.sections)
    ensures AsSeq(EncodeAll(d.labels, EncodeLabel), DecodeLabel) == Decoded(d.labels)
    ensures AsSeq(EncodeAll(d.filters, EncodeFilter), DecodeFilter) == Decoded(d.filters)
  {
    forall i | 0 <= i < |d.projects| ensures DecodeProject(EncodeProject(d.projects[i])) == Decoded(d.projects[i]) {
      ProjectRoundTrip(d.projects[i]);
    }
    EncodeAllRoundTrip(d.projects, EncodeProject, DecodeProject);
    forall i | 0 <= i < |d.items| ensures DecodeTask(EncodeTask(d.items[i])) == Decoded(d.items[i]) {
      TaskRoundTrip(d.items[i]);
    }
    EncodeAllRoundTrip(d.items, EncodeTask, DecodeTask);
    forall i | 0 <= i < |d.sections| ensures DecodeSection(EncodeSection(d.sections[i])) == Decoded(d.sections[i]) {
      SectionRoundTrip(d.sections[i]);
    }
    EncodeAllRoundTrip(d.sections, EncodeSection, DecodeSection);
    forall i | 0 <= i < |d.labels| ensures DecodeLabel(EncodeLabel(d.labels[i])) == Decoded(d.labels[i]) {
      LabelRoundTrip(d.labels[i]);
    }
    EncodeAllRoundTrip(d.labels, EncodeLabel, DecodeLabel);
    forall i | 0 <= i < |d.filters| ensures DecodeFilter(EncodeFilter(d.filters[i])) == Decoded(d.filters[i]) {
      FilterRoundTrip(d.filters[i]);
    }
    EncodeAllRoundTrip(d.filters, EncodeFilter, DecodeFilter);
  }

  /** The encoded data holds each sequence under its key. */
  lemma CacheDataEncodingValues(d: CacheData)
    ensures var m := EncodeCacheData(d).fields;
      && "projects" in m && m["projects"] == EncodeAll(d.projects, EncodeProject)
      && "items" in m && m["items"] == EncodeAll(d.items, EncodeTask)
      && "sections" in m && m["sections"] == EncodeAll(d.sections, EncodeSection)
      && "labels" in m && m["labels"] == EncodeAll(d.labels, EncodeLabel)
      && "filters" in m && m["filters"] == EncodeAll(d.filters, EncodeFilter)
  {
  }

  /** Any object whose five members decode to the sequences of `d` decodes to `d`. */
  lemma DecodeCacheDataFields(m: map<string, Json>, d: CacheData)
    requires "projects" in m && AsSeq(m["projects"], DecodeProject) == Decoded(d.projects)
    requires "items" in m && AsSeq(m["items"], DecodeTask) == Decoded(d.items)
    requires "sections" in m && AsSeq(m["sections"], DecodeSection) == Decoded(d.sections)
    requires "labels" in m && AsSeq(m["labels"], DecodeLabel) == Decoded(d.labels)
    requires "filters" in m && AsSeq(m["filters"], DecodeFilter) == Decoded(d.filters)
    ensures DecodeCacheData(JObject(m)) == Decoded(d)
  {
  }

  /** The cached data survives encoding and decoding. */
  lemma CacheDataRoundTrip(d: CacheData)
    ensures DecodeCacheData(EncodeCacheData(d)) == Decoded(d)
  {
    CacheDataEncodingValues(d);
    CacheDataSequences(d);
    DecodeCacheDataFields(EncodeCacheData(d).fields, d);
  }

  /** A cache survives encoding and decoding. */
  lemma CacheRoundTrip(c: Cache)
    ensures DecodeCache(EncodeCache(c)) == Decoded(c)
  {
    CacheDataRoundTrip(c.data);
  }

  /** What `save` writes, `load` reads back unchanged. */
  lemma SavedCacheReads(c: Cache)
    ensures ReadCache(Parsed(EncodeCache(c))) == Ok(Some(c))
  {
    CacheRoundTrip(c);
  }

  // ---------------------------------------------------------------- expiry

  /**
    `is_expired`: the cache is older than `thresholdSecs`. The clock reading
    `sinceEpoch` is `None` when the clock is before the epoch, which counts as
    time 0. Both casts to `i64` and the subtraction wrap.
  */
  function IsExpired(cache: Cache, thresholdSecs: u64, sinceEpoch: Option<u64>): (r: bool)
    ensures sinceEpoch.Some? && InI64(sinceEpoch.value) && InI64(thresholdSecs) && InI64(sinceEpoch.value - cache.cachedAt)
      ==> (r <==> sinceEpoch.value - cache.cachedAt > thresholdSecs)
    ensures sinceEpoch.None? && InI64(thresholdSecs) && InI64(-(cache.cachedAt as int)) ==> (r <==> -(cache.cachedAt as int) > thresholdSecs)
  {
    var now := if sinceEpoch.Some? then WrapI64(sinceEpoch.value) else 0;
    WrapI64(now - cache.cachedAt) > WrapI64(thresholdSecs)
  }

  /** With values in range, the cache is expired exactly when more than the threshold has passed since it was cached. */
  lemma ExpiredMeaning(cache: Cache, thresholdSecs: u64, now: u64)
    requires InI64(now) && InI64(thresholdSecs) && InI64(now - cache.cachedAt)
    ensures IsExpired(cache, thresholdSecs, Some(now)) <==> now - cache.cachedAt > thresholdSecs
  {
  }

  /** The threshold itself is not expired; one second more is. */
  lemma ExpiryBoundary(cache: Cache, thresholdSecs: u64)
    requires InI64(thresholdSecs) && InI64(cache.cachedAt + thresholdSecs + 1) && cache.cachedAt >= 0
    ensures !IsExpired(cache, thresholdSecs, Some(cache.cachedAt + thresholdSecs))
    ensures IsExpired(cache, thresholdSecs, Some(cache.cachedAt + thresholdSecs + 1))
  {
    ExpiredMeaning(cache, thresholdSecs, cache.cachedAt + thresholdSecs);
    ExpiredMeaning(cache, thresholdSecs, cache.cachedAt + thresholdSecs + 1);
  }

  /** A cache made at second 1 is expired after five minutes; one made now is not. */
  lemma ExpiryExamples(data: CacheData, now: u64)
    requires 301 < now < 0x8000_0000_0000_0000
    ensures IsExpired(Cache("test", 1, data), 300, Some(now))
    ensures !IsExpired(Cache("test", now, data), 300, Some(now))
  {
    ExpiredMeaning(Cache("test", 1, data), 300, now);
    ExpiredMeaning(Cache("test", now, data), 300, now);
  }

  /** A threshold of 2^63 or more wraps to a negative number, so even a brand-new cache is expired. */
  lemma WrappedThresholdExpires(cache: Cache, now: u64)
    requires InI64(now) && now == cache.cachedAt
    ensures IsExpired(cache, TWO_64 - 1, Some(now))
  {
    assert WrapI64(TWO_64 - 1) == -1;
  }

  // ---------------------------------------------------------------- the manager

  /** `CacheManager`: the cache file at its fixed path. */
  class CacheManager {
    /** `None` when there is no file at the cache path; otherwise what its text parses to. */
    var file: Option<JsonParse>

    /** A manager over the cache path, where the file system currently holds `existing`. */
    constructor(existing: Option<JsonParse>)
      ensures file == existing
    {
      file := existing;
    }

    /** `exists`. */
    function Exists(): (r: bool)
      reads this
      ensures r <==> file.Some?
    {
      file.Some?
    }

    /**
      `load`: no file is no cache; a file that cannot be read (`readFault`) is
      an I/O error; a file that does not hold a cache is invalid input.
    */
    function Load(readFault: Option<string>): (r: Result<Option<Cache>>)
      reads this
      ensures file.None? ==> r == Ok(None)
      ensures file.Some? && readFault.Some? ==> r == Err(Io(readFault.value))
      ensures file.Some? && readFault.None? ==> r == ReadCache(file.value)
    {
      if file.None? then Ok(None)
      else if readFault.Some? then Err(Io(readFault.value))
      else ReadCache(file.value)
    }

    /**
      `save`: writes the cache as JSON, replacing any file there. A failure to
      create the directory or to open the file for writing (`writeFault`) is an
      I/O error and leaves the file as it was.
    */
    method Save(cache: Cache, writeFault: Option<string>) returns (r: Result<()>)
      modifies this
      ensures writeFault.None? ==> r == Ok(()) && file == Some(Parsed(EncodeCache(cache)))
      ensures writeFault.Some? ==> r == Err(Io(writeFault.value)) && file == old(file)
    {
      if writeFault.Some? {
        return Err(Io(writeFault.value));
      }
      file := Some(Parsed(EncodeCache(cache)));
      r := Ok(());
    }

    /** `clear`: removes the file if there is one; a failure to remove it is an I/O error. */
    method Clear(removeFault: Option<string>) returns (r: Result<()>)
      modifies this
      ensures old(file).None? ==> r == Ok(()) && file == None
      ensures old(file).Some? && removeFault.None? ==> r == Ok(()) && file == None
      ensures old(file).Some? && removeFault.Some? ==> r == Err(Io(removeFault.value)) && file == old(file)
    {
      if file.Some? {
        if removeFault.Some? {
          return Err(Io(removeFault.value));
        }
        file := None;
      }
      r := Ok(());
    }
  }

  /** Saving a cache and loading it again gives back the same cache; clearing leaves nothing to load. */
  method SaveLoadClear(m: CacheManager, c: Cache)
    modifies m
    ensures m.Load(None) == Ok(None) && !m.Exists()
  {
    var saved := m.Save(c, None);
    assert saved.Ok? && m.Exists();
    SavedCacheReads(c);
    assert m.Load(None) == Ok(Some(c));
    var cleared := m.Clear(None);
    assert cleared.Ok?;
  }
}
