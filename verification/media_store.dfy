/**
 * The client-side stores of media records and of the files fetched for them
 * (src/modules/aiMediaMessages/aiMediaMessageRecordsStore.ts): the record
 * store, the per-thread view, the file URL, the cache of fetched files, the
 * watcher that fills the cache, and the view joining records with cached files.
 *
 * The PocketBase base URL is a parameter; `fetch` is the `fetchBlob` oracle.
 */
module MediaStore {
  import opened Wrappers
  import opened Strings
  import opened Seqs
  import opened MediaRecords
  import opened ChatFiles

  /** The record store's `data`: `undefined` (not loaded), `null` (loading
      failed) or the list of records. */
  datatype RecordsState = Unloaded | Unavailable | Listed(records: seq<MediaRecord>)

  function InThread(threadId: string): MediaRecord -> bool {
    (x: MediaRecord) => x.threadId == threadId
  }

  /** The records of one thread, or nothing when the store is not loaded. */
  function ThreadRecords(state: RecordsState, threadId: string): (r: Option<seq<MediaRecord>>)
    ensures r.Some? <==> state.Listed?
    ensures r.Some? ==> forall x :: x in r.value <==> x in state.records && x.threadId == threadId
  {
    if state.Listed? then
      var records := state.records;
      assert forall x :: x in Filter(InThread(threadId), records) <==> x in records && x.threadId == threadId by {
        forall x ensures x in Filter(InThread(threadId), records) <==> x in records && x.threadId == threadId {
          FilterMember(InThread(threadId), records, x);
        }
      }
      Some(Filter(InThread(threadId), records))
    else None
  }

  /** The thread view keeps the stored order: the view of a concatenation is
      the concatenation of the views. */
  lemma ThreadRecordsConcat(a: seq<MediaRecord>, b: seq<MediaRecord>, threadId: string)
    ensures ThreadRecords(Listed(a + b), threadId).value ==
              ThreadRecords(Listed(a), threadId).value + ThreadRecords(Listed(b), threadId).value
  {
    FilterConcat(InThread(threadId), a, b);
  }

  /** A thread holding every record sees them all, in order. */
  lemma ThreadRecordsAllInThread(rs: seq<MediaRecord>, threadId: string)
    requires forall i :: 0 <= i < |rs| ==> rs[i].threadId == threadId
    ensures ThreadRecords(Listed(rs), threadId) == Some(rs)
  {
    FilterKeepsAll(InThread(threadId), rs);
  }

  /** `useInitAiMediaMessageRecordsStore` */
  class MediaRecordStore {
    var data: RecordsState

    constructor ()
      ensures data == Unloaded
    {
      data := Unloaded;
    }

    /** `setData`: replaces the whole value. */
    method SetData(x: RecordsState)
      modifies this
      ensures data == x
    {
      data := x;
    }

    /** `clear`: back to `undefined`. */
    method Clear()
      modifies this
      ensures data == Unloaded
    {
      data := Unloaded;
    }

    /** `getMessagesByThreadId` of the record store. */
    function GetMessagesByThreadId(threadId: string): (r: Option<seq<MediaRecord>>)
      reads this
      ensures r.Some? <==> data.Listed?
      ensures r.Some? ==> forall x :: x in r.value <==> x in data.records && x.threadId == threadId
    {
      ThreadRecords(data, threadId)
    }
  }

  // ---------------------------------------------------------------------------
  // createUrlFromMediaMessageRecord

  const FilesPath: string := "/api/files/aiMediaMessages/"

  /** Where PocketBase serves a media record's file: the files path of the
      collection, then the record id, then the file reference. */
  function MediaFileUrl(baseUrl: string, r: MediaRecord): string {
    baseUrl + FilesPath + r.id + "/" + r.file
  }

  function UrlWith(baseUrl: string): MediaRecord -> string {
    (r: MediaRecord) => MediaFileUrl(baseUrl, r)
  }

  /** The URL's last two '/' pieces are the record's id and file reference,
      when neither contains '/'. */
  lemma MediaFileUrlPieces(baseUrl: string, r: MediaRecord)
    requires '/' !in r.id && '/' !in r.file
    ensures var parts := Split(MediaFileUrl(baseUrl, r), "/");
            |parts| >= 2 && parts[|parts| - 2] == r.id && parts[|parts| - 1] == r.file
  {
    var front := baseUrl + FilesPath[..|FilesPath| - 1];
    assert baseUrl + FilesPath == front + ['/'];
    assert MediaFileUrl(baseUrl, r) == (front + ['/'] + r.id) + ['/'] + r.file;
    SplitAppendPiece(front + ['/'] + r.id, '/', r.file);
    SplitAppendPiece(front, '/', r.id);
  }

  /** Hence the file fetched from that URL is named after the reference. */
  lemma MediaFileUrlLastSegment(baseUrl: string, r: MediaRecord)
    requires '/' !in r.file
    ensures LastSegment(MediaFileUrl(baseUrl, r), '/') == r.file
  {
    assert MediaFileUrl(baseUrl, r) == (baseUrl + FilesPath + r.id) + ['/'] + r.file;
    LastSegmentAfter(baseUrl + FilesPath + r.id, '/', r.file);
  }

  // ---------------------------------------------------------------------------
  // useCachedFilesStore

  /** The cache of fetched files, keyed by file name. */
  class CachedFilesStore {
    var data: map<string, File>

    constructor ()
      ensures data == map[]
    {
      data := map[];
    }

    /** `setData`: replaces the whole map. */
    method SetData(x: map<string, File>)
      modifies this
      ensures data == x
    {
      data := x;
    }

    /** `addData`: a merge of the new entries into the cache. New keys are added, keys of
        `newData` are overwritten, every other key keeps its file. */
    method AddData(newData: map<string, File>)
      modifies this
      ensures data == old(data) + newData
      ensures data.Keys == old(data).Keys + newData.Keys
      ensures forall k :: k in newData ==> data[k] == newData[k]
      ensures forall k :: k in old(data) && k !in newData ==> data[k] == old(data)[k]
    {
      data := data + newData;
    }

    /** `clear`: back to the empty map. */
    method Clear()
      modifies this
      ensures data == map[]
    {
      data := map[];
    }
  }

  // ---------------------------------------------------------------------------
  // useCachedFilesStoreWatcher

  function NotCachedIn(cache: map<string, File>): MediaRecord -> bool {
    (x: MediaRecord) => x.file !in cache
  }

  /** The records the watcher fetches for: those whose reference is not a key
      of the cache, in store order. */
  function Uncached(rs: seq<MediaRecord>, cache: map<string, File>): seq<MediaRecord> {
    Filter(NotCachedIn(cache), rs)
  }

  /** What the fetches for `rs` add to the cache, the later of two files with
      one name winning. */
  function FetchedFiles(baseUrl: string, rs: seq<MediaRecord>, cache: map<string, File>,
                        fetchBlob: string -> Option<seq<byte>>): map<string, File>
    decreases |rs|
  {
    if |rs| == 0 then map[]
    else
      var earlier := FetchedFiles(baseUrl, rs[..|rs| - 1], cache, fetchBlob);
      var r := rs[|rs| - 1];
      if r.file in cache then earlier
      else match FileFromMediaUrl(MediaFileUrl(baseUrl, r), fetchBlob)
        case None => earlier
        case Some(f) => earlier[f.name := f]
  }

  function Requests(baseUrl: string, rs: seq<MediaRecord>, cache: map<string, File>): seq<string> {
    Map(UrlWith(baseUrl), Uncached(rs, cache))
  }

  /** One more record adds its URL to the requests exactly when it is not cached. */
  lemma RequestsAppend(baseUrl: string, rs: seq<MediaRecord>, r: MediaRecord, cache: map<string, File>)
    ensures Requests(baseUrl, rs + [r], cache) ==
              Requests(baseUrl, rs, cache) + (if r.file in cache then [] else [MediaFileUrl(baseUrl, r)])
  {
    FilterConcat(NotCachedIn(cache), rs, [r]);
    assert [r][1..] == [];
    var tail := if r.file in cache then [] else [r];
    assert Filter(NotCachedIn(cache), [r]) == tail;
    MapConcat(UrlWith(baseUrl), Uncached(rs, cache), tail);
  }

  /** One more record adds its fetched file, if any, under the file's name. */
  lemma FetchedFilesAppend(baseUrl: string, rs: seq<MediaRecord>, r: MediaRecord,
                           cache: map<string, File>, fetchBlob: string -> Option<seq<byte>>)
    ensures var fetched := FileFromMediaUrl(MediaFileUrl(baseUrl, r), fetchBlob);
            cache + FetchedFiles(baseUrl, rs + [r], cache, fetchBlob) ==
              if r.file in cache || fetched.None? then cache + FetchedFiles(baseUrl, rs, cache, fetchBlob)
              else (cache + FetchedFiles(baseUrl, rs, cache, fetchBlob)) + map[fetched.value.name := fetched.value]
  {
    assert (rs + [r])[..|rs|] == rs;
    var fetched := FileFromMediaUrl(MediaFileUrl(baseUrl, r), fetchBlob);
    if !(r.file in cache || fetched.None?) {
      UnionUpdate(cache, FetchedFiles(baseUrl, rs, cache, fetchBlob), fetched.value.name, fetched.value);
    }
  }

  lemma UnionUpdate(a: map<string, File>, b: map<string, File>, k: string, v: File)
    ensures a + b[k := v] == (a + b) + map[k := v]
  {
  }

  /** The effect: for every stored record whose reference is not cached, fetch
      its URL and add the file under its own name when the fetch succeeds.
      The check reads the cache as it was when the effect ran; the additions
      of the fetches land afterwards, one at a time, in store order. */
  method WatchCachedFiles(store: MediaRecordStore, cache: CachedFilesStore, baseUrl: string,
                          fetchBlob: string -> Option<seq<byte>>)
    returns (requested: seq<string>)
    modifies cache
    ensures store.data.Listed? ==>
              requested == Requests(baseUrl, store.data.records, old(cache.data)) &&
              cache.data == old(cache.data) + FetchedFiles(baseUrl, store.data.records, old(cache.data), fetchBlob)
    ensures !store.data.Listed? ==> requested == [] && cache.data == old(cache.data)
  {
    requested := [];
    if !store.data.Listed? {
      return;
    }
    var records := store.data.records;
    var snapshot := cache.data;
    assert records[..0] == [];
    for i := 0 to |records|
      invariant requested == Requests(baseUrl, records[..i], snapshot)
      invariant cache.data == snapshot + FetchedFiles(baseUrl, records[..i], snapshot, fetchBlob)
    {
      var x := records[i];
      assert records[..i + 1] == records[..i] + [x];
      RequestsAppend(baseUrl, records[..i], x, snapshot);
      FetchedFilesAppend(baseUrl, records[..i], x, snapshot, fetchBlob);
      if x.file in snapshot {
        continue;
      }
      var url := MediaFileUrl(baseUrl, x);
      requested := requested + [url];
      var fetched := FileFromMediaUrl(url, fetchBlob);
      if fetched.Some? {
        var file := fetched.value;
        cache.AddData(map[file.name := file]);
      }
    }
    assert records[..|records|] == records;
  }

  /** Once every reference is cached the watcher fetches nothing and leaves
      the cache as it is. */
  lemma {:induction false} WatchIdleWhenCached(baseUrl: string, rs: seq<MediaRecord>,
                                                cache: map<string, File>,
                                                fetchBlob: string -> Option<seq<byte>>)
    requires forall i :: 0 <= i < |rs| ==> rs[i].file in cache
    ensures Uncached(rs, cache) == []
    ensures FetchedFiles(baseUrl, rs, cache, fetchBlob) == map[]
    decreases |rs|
  {
    FilterDropsAll(NotCachedIn(cache), rs);
    if |rs| > 0 {
      WatchIdleWhenCached(baseUrl, rs[..|rs| - 1], cache, fetchBlob);
    }
  }

  /** Every key the fetches add names a file fetched for an uncached record. */
  lemma {:induction false} FetchedFilesKeys(baseUrl: string, rs: seq<MediaRecord>,
                                            cache: map<string, File>,
                                            fetchBlob: string -> Option<seq<byte>>)
    ensures forall k :: k in FetchedFiles(baseUrl, rs, cache, fetchBlob) ==>
              FetchedFiles(baseUrl, rs, cache, fetchBlob)[k].name == k
    decreases |rs|
  {
    if |rs| > 0 {
      FetchedFilesKeys(baseUrl, rs[..|rs| - 1], cache, fetchBlob);
    }
  }

  /** A single uncached record: a successful fetch adds exactly one entry,
      keyed by the reference when it holds no '/'; a failed fetch adds none. */
  lemma FetchOne(baseUrl: string, r: MediaRecord, cache: map<string, File>,
                 fetchBlob: string -> Option<seq<byte>>)
    requires r.file !in cache && '/' !in r.file
    ensures fetchBlob(MediaFileUrl(baseUrl, r)).None? ==> FetchedFiles(baseUrl, [r], cache, fetchBlob) == map[]
    ensures fetchBlob(MediaFileUrl(baseUrl, r)).Some? ==>
              FetchedFiles(baseUrl, [r], cache, fetchBlob).Keys == {r.file} &&
              FetchedFiles(baseUrl, [r], cache, fetchBlob)[r.file] ==
                FileFromMediaUrl(MediaFileUrl(baseUrl, r), fetchBlob).value
  {
    assert [r][..0] == [];
    MediaFileUrlLastSegment(baseUrl, r);
  }

  /** When every fetch succeeds and no reference holds '/', one run caches
      every stored reference, so a second run is idle. */
  lemma {:induction false} WatchConverges(baseUrl: string, rs: seq<MediaRecord>,
                                          cache: map<string, File>,
                                          fetchBlob: string -> Option<seq<byte>>)
    requires forall i :: 0 <= i < |rs| ==> '/' !in rs[i].file
    requires forall i :: 0 <= i < |rs| ==> fetchBlob(MediaFileUrl(baseUrl, rs[i])).Some?
    ensures forall i :: 0 <= i < |rs| ==> rs[i].file in cache + FetchedFiles(baseUrl, rs, cache, fetchBlob)
    ensures Uncached(rs, cache + FetchedFiles(baseUrl, rs, cache, fetchBlob)) == []
    decreases |rs|
  {
    var after := cache + FetchedFiles(baseUrl, rs, cache, fetchBlob);
    if |rs| > 0 {
      var front := rs[..|rs| - 1];
      var r := rs[|rs| - 1];
      WatchConverges(baseUrl, front, cache, fetchBlob);
      if r.file !in cache {
        MediaFileUrlLastSegment(baseUrl, r);
      }
      forall i | 0 <= i < |rs| ensures rs[i].file in after {
        if i < |rs| - 1 {
          assert rs[i] == front[i];
        }
      }
    }
    WatchIdleWhenCached(baseUrl, rs, after, fetchBlob);
  }

  // ---------------------------------------------------------------------------
  // useAiMediaMessageRecordsWithCachedFilesStore

  /** `TAiMediaMessageRecordWithCachedFile`: the record with `file` replaced by
      the cached file (or `undefined`) and the reference kept as `fileUrl`. */
  datatype MediaWithFile = MediaWithFile(
    collectionId: string,
    collectionName: string,
    id: string,
    threadId: string,
    file: Option<File>,
    fileUrl: string,
    aiTextMessageId: string,
    created: string,
    updated: string)

  /** A record joined with its cached file; the reference moves to `fileUrl`. */
  function JoinCachedFile(cache: map<string, File>, x: MediaRecord): (m: MediaWithFile)
    ensures m.file == (if x.file in cache then Some(cache[x.file]) else None)
    ensures m.fileUrl == x.file
  {
    MediaWithFile(x.collectionId, x.collectionName, x.id, x.threadId,
      if x.file in cache then Some(cache[x.file]) else None,
      x.file, x.aiTextMessageId, x.created, x.updated)
  }

  /** The record a joined entry came from. */
  function Unjoin(m: MediaWithFile): MediaRecord {
    MediaRecord(m.collectionId, m.collectionName, m.id, m.threadId, m.fileUrl,
      m.aiTextMessageId, m.created, m.updated)
  }

  /** Joining changes no field but `file`: unjoining gives the record back. */
  lemma UnjoinJoin(cache: map<string, File>, x: MediaRecord)
    ensures Unjoin(JoinCachedFile(cache, x)) == x
  {
  }

  function JoinWith(cache: map<string, File>): MediaRecord -> MediaWithFile {
    (x: MediaRecord) => JoinCachedFile(cache, x)
  }

  /** `data?.map(...)` of the joined store. */
  function JoinedRecords(state: RecordsState, cache: map<string, File>): (r: Option<seq<MediaWithFile>>)
    ensures r.Some? <==> state.Listed?
    ensures r.Some? ==> |r.value| == |state.records|
    ensures r.Some? ==> forall i :: 0 <= i < |r.value| ==> Unjoin(r.value[i]) == state.records[i]
    ensures r.Some? ==> forall i :: 0 <= i < |r.value| ==>
              r.value[i].file == (if state.records[i].file in cache then Some(cache[state.records[i].file]) else None)
  {
    if state.Listed? then Some(Map(JoinWith(cache), state.records)) else None
  }

  function JoinedInThread(threadId: string): MediaWithFile -> bool {
    (x: MediaWithFile) => x.threadId == threadId
  }

  /** `getMessagesByThreadId` of the joined store. */
  function JoinedThreadRecords(state: RecordsState, cache: map<string, File>, threadId: string): Option<seq<MediaWithFile>> {
    var joined := JoinedRecords(state, cache);
    if joined.Some? then Some(Filter(JoinedInThread(threadId), joined.value)) else None
  }

  /** Filtering by thread after the join is joining the thread's records. */
  lemma {:induction false} FilterJoinCommute(rs: seq<MediaRecord>, cache: map<string, File>, threadId: string)
    ensures Filter(JoinedInThread(threadId), Map(JoinWith(cache), rs)) ==
              Map(JoinWith(cache), Filter(InThread(threadId), rs))
    decreases |rs|
  {
    if |rs| > 0 {
      FilterJoinCommute(rs[1..], cache, threadId);
      assert Map(JoinWith(cache), rs)[1..] == Map(JoinWith(cache), rs[1..]);
      var head := if rs[0].threadId == threadId then [rs[0]] else [];
      MapConcat(JoinWith(cache), head, Filter(InThread(threadId), rs[1..]));
    }
  }

  /** The joined thread view is the record thread view, joined. */
  lemma JoinedThreadRecordsAgree(state: RecordsState, cache: map<string, File>, threadId: string)
    ensures JoinedThreadRecords(state, cache, threadId).Some? <==> ThreadRecords(state, threadId).Some?
    ensures ThreadRecords(state, threadId).Some? ==>
              JoinedThreadRecords(state, cache, threadId).value ==
                Map(JoinWith(cache), ThreadRecords(state, threadId).value)
  {
    if state.Listed? {
      FilterJoinCommute(state.records, cache, threadId);
    }
  }
}
