/** The HLS downloader (`HLSDownloader.downloadHLS`): fetch and parse the master playlist,
    take the variant of highest bandwidth, fetch and parse its media playlist, fetch the
    segments in batches of ten into a pre-sized array indexed by playlist position, and
    write the array to the output file in index order. The network, the playlist parser
    and WHATWG url joining are the oracles of `Network`. */
module HlsDownloader {
  import opened Wrappers
  import opened Strings
  import opened Http

  newtype byte = x: int | 0 <= x < 256
  type Bytes = seq<byte>

  datatype Resolution = Resolution(width: int, height: int)

  /** One entry of `manifest.playlists`, its `uri` and `attributes.BANDWIDTH` / `RESOLUTION`. */
  datatype Variant = Variant(uri: string, bandwidth: int, resolution: Option<Resolution>)

  /** One entry of `manifest.segments`. */
  datatype Segment = Segment(uri: string, duration: real)

  /** The parts of `parser.manifest` the downloader reads. */
  datatype Manifest = Manifest(playlists: Option<seq<Variant>>, segments: Option<seq<Segment>>)

  datatype HlsError =
    | PlaylistFetchFailed(url: string)    // `fetchPlaylist` threw
    | InvalidMasterPlaylist               // 'Invalid master playlist'
    | NoVariants                          // `reduce` of an empty array throws
    | InvalidUrl(uri: string)             // `new URL` threw
    | InvalidSegmentPlaylist              // 'Invalid segment playlist'
    | SegmentFetchFailed(batchStart: nat) // the `Promise.all` of this batch rejected

  /** The world outside: `fetchPlaylist` followed by m3u8-parser (`None`: the request threw),
      `downloadSegment` (`None`: the request threw), and `new URL(relative, new URL(base))`
      (`None`: it threw). */
  datatype Network = Network(
    fetchPlaylist: (string, Headers) -> Option<Manifest>,
    fetchSegment: (string, Headers) -> Option<Bytes>,
    joinUrl: (string, string) -> Option<string>)

  const ChunkSize: nat := 10

  function Min(a: int, b: int): int { if a <= b then a else b }

  // ---------------------------------------------------------------------------
  // Variant selection

  /** The `reduce` callback applied left to right: the current variant replaces the best only
      when its bandwidth is strictly greater. */
  function ReduceBest(best: Variant, rest: seq<Variant>): Variant
    decreases |rest|
  {
    if |rest| == 0 then best
    else ReduceBest(if rest[0].bandwidth > best.bandwidth then rest[0] else best, rest[1..])
  }

  /** `streams.reduce(...)` without an initial value: it throws on an empty array. */
  function SelectBestStream(streams: seq<Variant>): (r: Result<Variant, HlsError>)
    ensures r.Failure? <==> |streams| == 0
    ensures r.Failure? ==> r.error == NoVariants
  {
    if |streams| == 0 then Failure(NoVariants) else Success(ReduceBest(streams[0], streams[1..]))
  }

  /** The index of the variant `ReduceBest` ends with, starting from `vs[b]` at position `k`. */
  ghost function ReduceIndex(vs: seq<Variant>, k: nat, b: nat): nat
    requires b < k <= |vs|
    decreases |vs| - k
  {
    if k == |vs| then b
    else ReduceIndex(vs, k + 1, if vs[k].bandwidth > vs[b].bandwidth then k else b)
  }

  lemma {:induction false} ReduceBestFrom(vs: seq<Variant>, k: nat, b: nat)
    requires b < k <= |vs|
    requires forall j :: 0 <= j < k ==> vs[j].bandwidth <= vs[b].bandwidth
    requires forall j :: 0 <= j < b ==> vs[j].bandwidth < vs[b].bandwidth
    ensures ReduceIndex(vs, k, b) < |vs|
    ensures ReduceBest(vs[b], vs[k..]) == vs[ReduceIndex(vs, k, b)]
    ensures forall j :: 0 <= j < |vs| ==> vs[j].bandwidth <= vs[ReduceIndex(vs, k, b)].bandwidth
    ensures forall j :: 0 <= j < ReduceIndex(vs, k, b) ==> vs[j].bandwidth < vs[ReduceIndex(vs, k, b)].bandwidth
    decreases |vs| - k
  {
    if k == |vs| {
      assert vs[k..] == [];
    } else {
      assert vs[k..][0] == vs[k] && vs[k..][1..] == vs[k + 1..];
      if vs[k].bandwidth > vs[b].bandwidth {
        ReduceBestFrom(vs, k + 1, k);
      } else {
        ReduceBestFrom(vs, k + 1, b);
      }
    }
  }

  /** The selected variant has the maximum bandwidth, and it is the first such variant in
      playlist order; an empty list is an error. */
  lemma BestStreamIsFirstMaximum(streams: seq<Variant>)
    ensures SelectBestStream(streams).Failure? <==> |streams| == 0
    ensures SelectBestStream(streams).Success? ==>
      exists i :: (0 <= i < |streams| && SelectBestStream(streams).value == streams[i]
        && (forall j :: 0 <= j < |streams| ==> streams[j].bandwidth <= streams[i].bandwidth)
        && (forall j :: 0 <= j < i ==> streams[j].bandwidth < streams[i].bandwidth))
  {
    if |streams| > 0 {
      ReduceBestFrom(streams, 1, 0);
      var i := ReduceIndex(streams, 1, 0);
      assert SelectBestStream(streams).value == streams[i];
    }
  }

  lemma SelectsHigherBandwidth()
    ensures SelectBestStream([Variant("low.m3u8", 800000, None), Variant("high.m3u8", 1200000, None)])
      == Success(Variant("high.m3u8", 1200000, None))
  {
    var vs := [Variant("low.m3u8", 800000, None), Variant("high.m3u8", 1200000, None)];
    assert vs[1..][1..] == [];
  }

  // ---------------------------------------------------------------------------
  // Urls

  /** `resolveUrl`: a uri starting with `http` is used as it is, anything else is joined to the base. */
  function ResolveUrl(baseUrl: string, relativeUrl: string, joinUrl: (string, string) -> Option<string>): Result<string, HlsError>
  {
    if StartsWith(relativeUrl, "http") then Success(relativeUrl)
    else match joinUrl(baseUrl, relativeUrl)
      case Some(u) => Success(u)
      case None => Failure(InvalidUrl(relativeUrl))
  }

  /** Whatever url joining does, an absolute `http` uri comes back unchanged, and only a uri not
      starting with `http` can fail to resolve. */
  lemma AbsoluteUriUnchanged(baseUrl: string, relativeUrl: string, joinUrl: (string, string) -> Option<string>)
    ensures StartsWith(relativeUrl, "http") ==> ResolveUrl(baseUrl, relativeUrl, joinUrl) == Success(relativeUrl)
    ensures ResolveUrl(baseUrl, relativeUrl, joinUrl).Failure? ==>
      !StartsWith(relativeUrl, "http") && joinUrl(baseUrl, relativeUrl).None?
  {
  }

  // ---------------------------------------------------------------------------
  // Segment fetching: what each slot should receive

  /** The bytes of segment `k`: its uri resolved against the media playlist url, then fetched. */
  function SegmentData(segments: seq<Segment>, playlistUrl: string, headers: Headers, net: Network, k: nat): Option<Bytes>
    requires k < |segments|
  {
    match ResolveUrl(playlistUrl, segments[k].uri, net.joinUrl)
    case Success(u) => net.fetchSegment(u, headers)
    case Failure(_) => None
  }

  predicate AllFetched(segments: seq<Segment>, playlistUrl: string, headers: Headers, net: Network, hi: nat)
    requires hi <= |segments|
  {
    forall k :: 0 <= k < hi ==> SegmentData(segments, playlistUrl, headers, net, k).Some?
  }

  /** The slots a run writes, in the order it writes them: the indices below `hi` whose fetch succeeded. */
  ghost function FetchedSlots(segments: seq<Segment>, playlistUrl: string, headers: Headers, net: Network, hi: nat): seq<nat>
    requires hi <= |segments|
  {
    if hi == 0 then []
    else
      var last := if SegmentData(segments, playlistUrl, headers, net, hi - 1).Some? then [hi - 1] else [];
      FetchedSlots(segments, playlistUrl, headers, net, hi - 1) + last
  }

  /** When every fetch succeeds, slot k is written k-th: each slot exactly once, in index order. */
  lemma {:induction false} FetchedSlotsAllOnce(segments: seq<Segment>, playlistUrl: string, headers: Headers, net: Network, hi: nat)
    requires hi <= |segments|
    requires AllFetched(segments, playlistUrl, headers, net, hi)
    ensures |FetchedSlots(segments, playlistUrl, headers, net, hi)| == hi
    ensures forall t :: 0 <= t < hi ==> FetchedSlots(segments, playlistUrl, headers, net, hi)[t] == t
  {
    if hi > 0 {
      FetchedSlotsAllOnce(segments, playlistUrl, headers, net, hi - 1);
    }
  }

  /** The index of the first segment whose fetch fails, at or after `from`. */
  function FirstFailure(segments: seq<Segment>, playlistUrl: string, headers: Headers, net: Network, from: nat): (r: Option<nat>)
    requires from <= |segments|
    ensures r.None? <==> forall k :: from <= k < |segments| ==> SegmentData(segments, playlistUrl, headers, net, k).Some?
    ensures r.Some? ==> from <= r.value < |segments| && SegmentData(segments, playlistUrl, headers, net, r.value).None?
    ensures r.Some? ==> forall k :: from <= k < r.value ==> SegmentData(segments, playlistUrl, headers, net, k).Some?
    decreases |segments| - from
  {
    if from == |segments| then None
    else if SegmentData(segments, playlistUrl, headers, net, from).None? then Some(from)
    else FirstFailure(segments, playlistUrl, headers, net, from + 1)
  }

  /** The concatenation of the fetched bytes of segments `0 .. hi-1`, in index order. */
  function Assembled(segments: seq<Segment>, playlistUrl: string, headers: Headers, net: Network, hi: nat): Bytes
    requires hi <= |segments|
  {
    if hi == 0 then []
    else
      var last := match SegmentData(segments, playlistUrl, headers, net, hi - 1) case Some(b) => b case None => [];
      Assembled(segments, playlistUrl, headers, net, hi - 1) + last
  }

  /** The bytes of the buffers of `slots`, in index order. */
  function Flatten(slots: seq<Option<Bytes>>): Bytes
    requires forall k :: 0 <= k < |slots| ==> slots[k].Some?
  {
    if |slots| == 0 then [] else Flatten(slots[..|slots| - 1]) + slots[|slots| - 1].value
  }

  lemma {:induction false} FlattenFetched(slots: seq<Option<Bytes>>, segments: seq<Segment>, playlistUrl: string, headers: Headers, net: Network, hi: nat)
    requires hi <= |segments| && |slots| == hi
    requires forall k :: 0 <= k < hi ==> slots[k] == SegmentData(segments, playlistUrl, headers, net, k) && slots[k].Some?
    ensures Flatten(slots) == Assembled(segments, playlistUrl, headers, net, hi)
  {
    if hi > 0 {
      FlattenFetched(slots[..hi - 1], segments, playlistUrl, headers, net, hi - 1);
    }
  }

  /** Where segment k lands in the output: right after the bytes of segments `0 .. k-1`. */
  lemma {:induction false} AssembledLayout(segments: seq<Segment>, playlistUrl: string, headers: Headers, net: Network, hi: nat, k: nat)
    requires k < hi <= |segments|
    requires SegmentData(segments, playlistUrl, headers, net, k).Some?
    ensures var off := |Assembled(segments, playlistUrl, headers, net, k)|;
      var b := SegmentData(segments, playlistUrl, headers, net, k).value;
      off + |b| <= |Assembled(segments, playlistUrl, headers, net, hi)| &&
      Assembled(segments, playlistUrl, headers, net, hi)[off..off + |b|] == b
    decreases hi
  {
    var off := |Assembled(segments, playlistUrl, headers, net, k)|;
    var b := SegmentData(segments, playlistUrl, headers, net, k).value;
    if hi == k + 1 {
      assert Assembled(segments, playlistUrl, headers, net, hi) == Assembled(segments, playlistUrl, headers, net, k) + b;
    } else {
      AssembledLayout(segments, playlistUrl, headers, net, hi - 1, k);
      var prev := Assembled(segments, playlistUrl, headers, net, hi - 1);
      assert Assembled(segments, playlistUrl, headers, net, hi)[..|prev|] == prev;
    }
  }

  // ---------------------------------------------------------------------------
  // The batch loop

  /** The progress line of a batch starting at `i`: `i+1 .. min(i+10, n)`, one-based, which is
      exactly the batch and never beyond the last segment. */
  function ProgressRange(i: nat, n: nat): (r: (nat, nat))
    requires i < n
    ensures 1 <= r.0 <= r.1 <= n
    ensures r.1 - r.0 + 1 == Min(ChunkSize, n - i)
  {
    (i + 1, Min(i + ChunkSize, n))
  }

  /** Step 5 of `downloadHLS`: for `i = 0, 10, 20, ...` the batch `segments.slice(i, i + 10)` is
      fetched, each segment into slot `i + chunkIndex`; when any fetch of a batch fails the
      batch's error ends the loop. Batches run one after the other. */
  method DownloadSegments(segments: seq<Segment>, segmentPlaylistUrl: string, headers: Headers, net: Network)
    returns (segmentBuffers: array<Option<Bytes>>, failedBatch: Option<nat>,
             ghost batches: nat, ghost slotsWritten: seq<nat>)
    ensures fresh(segmentBuffers) && segmentBuffers.Length == |segments|
    ensures failedBatch.None? <==> AllFetched(segments, segmentPlaylistUrl, headers, net, |segments|)
    ensures failedBatch.None? ==>
      && batches == (|segments| + ChunkSize - 1) / ChunkSize
      && (|segments| > 0 ==> 0 < |segments| - ChunkSize * (batches - 1) <= ChunkSize)
      && (forall k :: 0 <= k < |segments| ==>
            segmentBuffers[k] == SegmentData(segments, segmentPlaylistUrl, headers, net, k))
      && slotsWritten == FetchedSlots(segments, segmentPlaylistUrl, headers, net, |segments|)
      && |slotsWritten| == |segments|
      && (forall t :: 0 <= t < |segments| ==> slotsWritten[t] == t)
    ensures failedBatch.Some? ==>
      var b := failedBatch.value;
      && FirstFailure(segments, segmentPlaylistUrl, headers, net, 0).Some?
      && b == FirstFailure(segments, segmentPlaylistUrl, headers, net, 0).value / ChunkSize * ChunkSize
      && batches > 0 && b == ChunkSize * (batches - 1)
      && (forall k :: Min(b + ChunkSize, |segments|) <= k < |segments| ==> segmentBuffers[k].None?)
  {
    segmentBuffers, failedBatch, batches, slotsWritten := RunBatches(segments, segmentPlaylistUrl, headers, net);
    if failedBatch.None? {
      BatchCount(batches, |segments|);
      FetchedSlotsAllOnce(segments, segmentPlaylistUrl, headers, net, |segments|);
    } else {
      var b := failedBatch.value;
      FirstFailureInBatch(segments, segmentPlaylistUrl, headers, net, b, Min(b + ChunkSize, |segments|));
    }
  }

  /** The loop of `DownloadSegments`, with what each batch leaves behind: all slots so far filled
      from their fetches, or the start of the batch that failed. */
  method RunBatches(segments: seq<Segment>, segmentPlaylistUrl: string, headers: Headers, net: Network)
    returns (segmentBuffers: array<Option<Bytes>>, failedBatch: Option<nat>,
             ghost batches: nat, ghost slotsWritten: seq<nat>)
    ensures fresh(segmentBuffers) && segmentBuffers.Length == |segments|
    ensures failedBatch.None? ==>
      && ChunkSize * batches >= |segments|
      && (batches > 0 ==> ChunkSize * batches - ChunkSize < |segments|)
      && AllFetched(segments, segmentPlaylistUrl, headers, net, |segments|)
      && (forall k :: 0 <= k < |segments| ==>
            segmentBuffers[k] == SegmentData(segments, segmentPlaylistUrl, headers, net, k))
      && slotsWritten == FetchedSlots(segments, segmentPlaylistUrl, headers, net, |segments|)
    ensures failedBatch.Some? ==>
      var b := failedBatch.value;
      && batches > 0 && b == ChunkSize * (batches - 1)
      && b < |segments| && b % ChunkSize == 0
      && AllFetched(segments, segmentPlaylistUrl, headers, net, b)
      && !AllFetched(segments, segmentPlaylistUrl, headers, net, Min(b + ChunkSize, |segments|))
      && (forall k :: Min(b + ChunkSize, |segments|) <= k < |segments| ==> segmentBuffers[k].None?)
  {
    var n := |segments|;
    segmentBuffers := new Option<Bytes>[n](_ => None);
    batches := 0;
    slotsWritten := [];
    var i := 0;
    // `filled` is the number of slots the batches so far have covered.
    ghost var filled := 0;
    while i < n
      invariant i == ChunkSize * batches
      invariant batches > 0 ==> i - ChunkSize < n
      invariant filled == Min(i, n)
      invariant AllFetched(segments, segmentPlaylistUrl, headers, net, filled)
      invariant forall k :: 0 <= k < filled ==>
        segmentBuffers[k] == SegmentData(segments, segmentPlaylistUrl, headers, net, k)
      invariant forall k :: filled <= k < n ==> segmentBuffers[k].None?
      invariant slotsWritten == FetchedSlots(segments, segmentPlaylistUrl, headers, net, filled)
    {
      var end := Min(i + ChunkSize, n);
      var chunk := segments[i..end];
      batches := batches + 1;
      var anyFailed;
      anyFailed, slotsWritten := FetchBatch(segments, segmentPlaylistUrl, headers, net, segmentBuffers, i, end, slotsWritten);
      if anyFailed {
        BatchStartAligned(batches - 1);
        failedBatch := Some(i);
        return;
      }
      i := i + ChunkSize;
      filled := end;
    }
    failedBatch := None;
  }

  lemma BatchStartAligned(j: nat)
    ensures (ChunkSize * j) % ChunkSize == 0
  {
  }

  /** The loop runs `ceil(n / 10)` batches: the last one starts below `n` and the next would not. */
  lemma BatchCount(count: nat, n: nat)
    requires ChunkSize * count >= n
    requires count > 0 ==> ChunkSize * count - ChunkSize < n
    ensures count == (n + ChunkSize - 1) / ChunkSize
  {
  }

  /** One batch: `Promise.all(chunk.map(...))` over segments `[i, end)`; every fetch of the batch
      is attempted and each successful one fills its own slot. */
  method FetchBatch(segments: seq<Segment>, segmentPlaylistUrl: string, headers: Headers, net: Network,
                    segmentBuffers: array<Option<Bytes>>, i: nat, end: nat, ghost slotsBefore: seq<nat>)
    returns (anyFailed: bool, ghost slotsWritten: seq<nat>)
    requires segmentBuffers.Length == |segments| && i <= end <= |segments|
    requires forall k :: 0 <= k < i ==> segmentBuffers[k] == SegmentData(segments, segmentPlaylistUrl, headers, net, k)
    requires forall k :: i <= k < |segments| ==> segmentBuffers[k].None?
    requires slotsBefore == FetchedSlots(segments, segmentPlaylistUrl, headers, net, i)
    requires AllFetched(segments, segmentPlaylistUrl, headers, net, i)
    modifies segmentBuffers
    ensures forall k :: 0 <= k < end ==> segmentBuffers[k] == SegmentData(segments, segmentPlaylistUrl, headers, net, k)
    ensures forall k :: end <= k < |segments| ==> segmentBuffers[k].None?
    ensures anyFailed <==> !AllFetched(segments, segmentPlaylistUrl, headers, net, end)
    ensures slotsWritten == FetchedSlots(segments, segmentPlaylistUrl, headers, net, end)
  {
    anyFailed := false;
    slotsWritten := slotsBefore;
    // `segmentIndex` is `i + chunkIndex` for the position `chunkIndex` within the batch.
    for segmentIndex := i to end
      invariant forall k :: 0 <= k < segmentIndex ==>
        segmentBuffers[k] == SegmentData(segments, segmentPlaylistUrl, headers, net, k)
      invariant forall k :: segmentIndex <= k < |segments| ==> segmentBuffers[k].None?
      invariant anyFailed <==> !AllFetched(segments, segmentPlaylistUrl, headers, net, segmentIndex)
      invariant slotsWritten == FetchedSlots(segments, segmentPlaylistUrl, headers, net, segmentIndex)
    {
      FetchStep(segments, segmentPlaylistUrl, headers, net, segmentIndex);
      var segmentData := FetchSegment(segments, segmentPlaylistUrl, headers, net, segmentIndex);
      if segmentData.Some? {
        segmentBuffers[segmentIndex] := segmentData;
        slotsWritten := slotsWritten + [segmentIndex];
      } else {
        anyFailed := true;
      }
    }
  }

  /** The callback for one segment: resolve its uri against the playlist url, then fetch it;
      a uri that cannot be resolved fails like a fetch. */
  method FetchSegment(segments: seq<Segment>, segmentPlaylistUrl: string, headers: Headers, net: Network, k: nat)
    returns (segmentData: Option<Bytes>)
    requires k < |segments|
    ensures segmentData == SegmentData(segments, segmentPlaylistUrl, headers, net, k)
  {
    var segmentUrl := ResolveUrl(segmentPlaylistUrl, segments[k].uri, net.joinUrl);
    if segmentUrl.Failure? {
      return None;
    }
    segmentData := net.fetchSegment(segmentUrl.value, headers);
  }

  /** One more fetch extends the run: all fetched so far and this one too, and this slot is
      written last exactly when its fetch succeeded. */
  lemma FetchStep(segments: seq<Segment>, playlistUrl: string, headers: Headers, net: Network, hi: nat)
    requires hi < |segments|
    ensures AllFetched(segments, playlistUrl, headers, net, hi + 1) <==>
      AllFetched(segments, playlistUrl, headers, net, hi) && SegmentData(segments, playlistUrl, headers, net, hi).Some?
    ensures FetchedSlots(segments, playlistUrl, headers, net, hi + 1) ==
      FetchedSlots(segments, playlistUrl, headers, net, hi)
      + (if SegmentData(segments, playlistUrl, headers, net, hi).Some? then [hi] else [])
  {
  }

  /** When batches before `i` all succeeded and batch `[i, end)` did not, the first failure lies
      in that batch. */
  lemma FirstFailureInBatch(segments: seq<Segment>, playlistUrl: string, headers: Headers, net: Network, i: nat, end: nat)
    requires i < end <= |segments| && i % ChunkSize == 0 && end - i <= ChunkSize
    requires AllFetched(segments, playlistUrl, headers, net, i)
    requires !AllFetched(segments, playlistUrl, headers, net, end)
    ensures FirstFailure(segments, playlistUrl, headers, net, 0).Some?
    ensures FirstFailure(segments, playlistUrl, headers, net, 0).value / ChunkSize * ChunkSize == i
  {
    var f := FirstFailure(segments, playlistUrl, headers, net, 0);
    var k :| 0 <= k < end && SegmentData(segments, playlistUrl, headers, net, k).None?;
    assert f.Some?;
    assert i <= f.value < end;
  }

  // ---------------------------------------------------------------------------
  // Output

  /** The local file system as the downloader changes it: directories created and file contents. */
  class FileSystem {
    var directories: set<string>
    var files: map<string, Bytes>

    constructor ()
      ensures directories == {} && files == map[]
    {
      directories := {};
      files := map[];
    }

    /** `fs.mkdir(dir, { recursive: true })`. */
    method MakeDirectory(dir: string)
      modifies this
      ensures directories == old(directories) + {dir} && files == old(files)
    {
      directories := directories + {dir};
    }

    /** `createWriteStream(path)`: the file is created, or truncated when it exists. */
    method CreateFile(path: string)
      modifies this
      ensures files == old(files)[path := []] && directories == old(directories)
    {
      files := files[path := []];
    }

    /** `writeStream.write(data)`: appends to the file. */
    method Append(path: string, data: Bytes)
      requires path in files
      modifies this
      ensures files == old(files)[path := old(files)[path] + data] && directories == old(directories)
    {
      files := files[path := files[path] + data];
    }
  }

  /** `combineSegments`: the output directory is created, then the buffers are written to the
      output file one after the other in index order. */
  method CombineSegments(segments: array<Option<Bytes>>, outputPath: string,
                         dirName: string -> string, fs: FileSystem)
    requires forall k :: 0 <= k < segments.Length ==> segments[k].Some?
    modifies fs
    ensures fs.directories == old(fs.directories) + {dirName(outputPath)}
    ensures fs.files == old(fs.files)[outputPath := Flatten(segments[..])]
  {
    fs.MakeDirectory(dirName(outputPath));
    fs.CreateFile(outputPath);
    for k := 0 to segments.Length
      invariant fs.directories == old(fs.directories) + {dirName(outputPath)}
      invariant fs.files == old(fs.files)[outputPath := Flatten(segments[..k])]
    {
      assert segments[..k + 1][..k] == segments[..k];
      fs.Append(outputPath, segments[k].value);
    }
    assert segments[..segments.Length] == segments[..];
  }

  // ---------------------------------------------------------------------------
  // The whole download

  /** What `downloadHLS` produces, step by step: the bytes of the output file, or the error it throws. */
  function HlsOutcome(m3u8Url: string, referer: Option<string>, net: Network): Result<Bytes, HlsError>
  {
    var headers := RequestHeaders(referer);
    match net.fetchPlaylist(m3u8Url, headers)
    case None => Failure(PlaylistFetchFailed(m3u8Url))
    case Some(master) =>
      if master.playlists.None? then Failure(InvalidMasterPlaylist)
      else match SelectBestStream(master.playlists.value)
      case Failure(e) => Failure(e)
      case Success(best) =>
        match ResolveUrl(m3u8Url, best.uri, net.joinUrl)
        case Failure(e) => Failure(e)
        case Success(segmentPlaylistUrl) =>
          match net.fetchPlaylist(segmentPlaylistUrl, headers)
          case None => Failure(PlaylistFetchFailed(segmentPlaylistUrl))
          case Some(media) =>
            if media.segments.None? then Failure(InvalidSegmentPlaylist)
            else
              var segments := media.segments.value;
              match FirstFailure(segments, segmentPlaylistUrl, headers, net, 0)
              case Some(k) => Failure(SegmentFetchFailed(k / ChunkSize * ChunkSize))
              case None => Success(Assembled(segments, segmentPlaylistUrl, headers, net, |segments|))
  }

  /** `downloadHLS(m3u8Url, outputPath, referer)`: on success the output file holds the assembled
      stream; on any error nothing on disk has changed. */
  method DownloadHls(m3u8Url: string, outputPath: string, referer: Option<string>,
                     net: Network, dirName: string -> string, fs: FileSystem)
    returns (r: Result<(), HlsError>)
    modifies fs
    ensures r.Failure? <==> HlsOutcome(m3u8Url, referer, net).Failure?
    ensures r.Failure? ==> r.error == HlsOutcome(m3u8Url, referer, net).error
    ensures r.Failure? ==> fs.files == old(fs.files) && fs.directories == old(fs.directories)
    ensures r.Success? ==> fs.files == old(fs.files)[outputPath := HlsOutcome(m3u8Url, referer, net).value]
    ensures r.Success? ==> fs.directories == old(fs.directories) + {dirName(outputPath)}
  {
    var headers := RequestHeaders(referer);
    var masterPlaylist := net.fetchPlaylist(m3u8Url, headers);
    if masterPlaylist.None? {
      return Failure(PlaylistFetchFailed(m3u8Url));
    }
    if masterPlaylist.value.playlists.None? {
      return Failure(InvalidMasterPlaylist);
    }
    var bestStream := SelectBestStream(masterPlaylist.value.playlists.value);
    if bestStream.Failure? {
      return Failure(bestStream.error);
    }
    var segmentPlaylistUrl := ResolveUrl(m3u8Url, bestStream.value.uri, net.joinUrl);
    if segmentPlaylistUrl.Failure? {
      return Failure(segmentPlaylistUrl.error);
    }
    var segmentPlaylist := net.fetchPlaylist(segmentPlaylistUrl.value, headers);
    if segmentPlaylist.None? {
      return Failure(PlaylistFetchFailed(segmentPlaylistUrl.value));
    }
    if segmentPlaylist.value.segments.None? {
      return Failure(InvalidSegmentPlaylist);
    }
    var segments := segmentPlaylist.value.segments.value;
    var segmentBuffers, failedBatch, batches, slotsWritten :=
      DownloadSegments(segments, segmentPlaylistUrl.value, headers, net);
    if failedBatch.Some? {
      return Failure(SegmentFetchFailed(failedBatch.value));
    }
    FlattenFetched(segmentBuffers[..], segments, segmentPlaylistUrl.value, headers, net, |segments|);
    CombineSegments(segmentBuffers, outputPath, dirName, fs);
    r := Success(());
  }
}
