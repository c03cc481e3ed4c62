# luffy core, modelled in Dafny

This project models and proves the three pieces of sequential logic at the core of luffy, a
command-line anime downloader:

- **The provider-id decoder and source resolver** of the scraper. `decodeProviderId` strips an
  optional `--` marker and cuts the rest into two-character pairs. It maps each pair through an
  84-case substitution table, joins the results and rewrites the first `/clock` into
  `/clock.json`. The source-selection part of `getEpisodeUrl` sorts the API's source records by
  priority, highest first. It then tries three tiers in order: encoded sources (decoded, then
  their links fetched), `downloads.downloadUrl`, and plain embed urls.
- **The HLS downloader**. It fetches and parses the master playlist and keeps the variant with
  the highest bandwidth. It fetches that variant's media playlist, then fetches the segments in
  batches of ten into a pre-sized array indexed by playlist position. Finally it writes the
  array to the output file in index order.
- **The download dispatcher**. Placeholder urls are skipped. The HEAD/GET "looks like video"
  check decides whether to go on. A valid url is sent to a playlist tool (ffmpeg, yt-dlp) or a
  direct tool (aria2c, wget, curl), and the model builds each tool's argument vector.

Modules: `Wrappers` (Option, Result), `Strings` (prefix, substring, first-occurrence replace,
ASCII lower-casing), `Http` (request headers), `ProviderId`, `SourceResolver`, `HlsDownloader`,
`Downloader`.

The outside world is made of parameters:

- the links fetch of the resolver is `fetchLinks: string -> Option<seq<Link>>`, which is `None`
  when the request throws or the response has no `links`;
- playlist fetch-and-parse, segment fetch and url joining are the three functions of
  `HlsDownloader.Network`;
- HEAD/GET requests are `Downloader.HttpClient`;
- `path.join`/`dirname`/`basename` are `Downloader.PathOps`;
- `commandExists` answers are `Downloader.Installed`.

Changes to the disk are modelled as a `FileSystem` object with `directories` and `files`
(HLS). Effects of the dispatcher are modelled as a returned log of requests, directory
creation, subtitle fetch and process spawns.

Three facts about the code that the proofs make explicit:

- the substitution table has 84 entries;
- the `/clock` rewrite is not idempotent: `/clock.json` becomes `/clock.json.json` (proved in
  `ProviderId.ClockRewriteNotIdempotent`);
- the ffmpeg argument vector without a referer has ten elements (`-extension_picky 0
  -loglevel error -stats -i <url> -c copy <output>`).

## Model

| member | source | states |
|---|---|---|
| ProviderId.DecodeProviderId | src/scraper.ts:10-108 | strip the marker, pair, substitute, join, rewrite `/clock`; its properties are stated by `DecodeKnownPairs`, `MarkerOptional`, `ClockRewrite` and `EncodeRoundTrip` |
| ProviderId.HexPairs | src/scraper.ts:15 | every match has two characters, and there are at most half as many matches as characters |
| ProviderId.HexPairsOfLine | src/scraper.ts:15 | on an id without line terminators the pairs are `s[0..2], s[2..4], …` in order, one per two characters, so an odd last character is dropped |
| ProviderId.SubstituteHasInverse | src/scraper.ts:16-101 | every known pair is the inverse-table pair of the character it decodes to |
| ProviderId.PairForIsInverse | src/scraper.ts:16-101 | every character the table produces comes from exactly the pair the inverse table gives |
| ProviderId.SubstituteInjective | src/scraper.ts:18-101 | distinct known pairs decode to distinct characters |
| ProviderId.DecodePairs | src/scraper.ts:16-104 | the decoded text has at most one character per pair |
| ProviderId.DecodePairsAppend | src/scraper.ts:16-104 | decoding distributes over concatenation of pair lists (the output is the in-order join) |
| ProviderId.UnknownPairDropped | src/scraper.ts:102-104 | a pair outside the table contributes nothing: removing it leaves the output unchanged |
| ProviderId.DecodeKnownPairs | src/scraper.ts:16-104 | when all pairs are known, output length equals the pair count and character k is the table entry of pair k |
| ProviderId.MarkerOptional | src/scraper.ts:12-104 | a leading `--` is removed once, and `--` is no table pair, so `--s` decodes like `s` for every `s`, including `s` that starts with `--` again |
| ProviderId.DecodesABC | src/scraper.ts:12-107 | `"--797a7b"` and `"797a7b"` both decode to `"ABC"` |
| ProviderId.ClockRewrite | src/scraper.ts:107 | no `/clock` leaves the text unchanged; otherwise exactly the first occurrence becomes `/clock.json`, which then occurs in the result |
| ProviderId.ClockRewriteNotIdempotent | src/scraper.ts:107 | `/clock.json` is rewritten to `/clock.json.json` |
| ProviderId.DecodeEncodedBody | src/scraper.ts:15-104 | decoding the inverse-table encoding of any text gives the text back |
| ProviderId.EncodeRoundTrip | src/scraper.ts:10-108 | `decodeProviderId("--" + encode(s))` is `s` with the `/clock` rewrite applied |
| Strings.ReplaceFirstAbsent | src/scraper.ts:107 | `replace` with a string pattern leaves a text without the pattern unchanged |
| Strings.ReplaceFirstAt | src/scraper.ts:107 | `replace` with a string pattern substitutes exactly the first occurrence |
| Strings.ContainsOccurs | src/downloader.ts:227-235 | `includes` holds exactly when the pattern occurs at some position of the text |
| SourceResolver.Insert | src/scraper.ts:230 | inserting into a priority-sorted list keeps it sorted, and nothing in the result outranks both the new source and the old head |
| SourceResolver.InsertPermutes | src/scraper.ts:230 | the insertion adds exactly the new source: the result is the old list plus it, as a multiset |
| SourceResolver.SortByPriority | src/scraper.ts:230 | the result is sorted by `priority \|\| 0`, highest first, and is a permutation of the response |
| SourceResolver.SortIsStable | src/scraper.ts:230 | sources of equal priority keep their response order |
| SourceResolver.Candidate | src/scraper.ts:233-291 | what one source yields in one tier: the guards of each of the three loops; stated by `EncodedCandidate` and `EmbedUrlNormalised` |
| SourceResolver.FirstHit | src/scraper.ts:233-292 | a hit is the first member of the list that yields in the tier: it yields, and every source before it yields nothing; no hit exactly when no source yields |
| SourceResolver.BestIsEarliestHighest | src/scraper.ts:230-292 | the reference choice yields in the tier, has the highest priority among those that do, and every earlier yielding source has strictly lower priority |
| SourceResolver.SortedFirstHitIsBest | src/scraper.ts:230-292 | first hit after the stable sort equals the reference one-pass choice on the unsorted response |
| SourceResolver.ResolveByTier | src/scraper.ts:224-304 | the result is the encoded tier's best url, else the download tier's, else the embed tier's, else the error, always with referer `https://allmanga.to` and no subtitle |
| SourceResolver.ResolveFailsIff | src/scraper.ts:224-304 | the call throws exactly when `sourceUrls` is missing, or no source yields anything in any tier (which includes the empty list) |
| SourceResolver.EncodedCandidate | src/scraper.ts:233-267 | an encoded source yields exactly when it starts with `--` and the fetch of its decoded url returns a non-empty `links`; it yields `links[0].link` |
| SourceResolver.EncodedTierWins | src/scraper.ts:233-260 | when some encoded source yields, the result is the first link fetched from `https://allanime.day` followed by the winner's decoded id, with the provider referer and no subtitle |
| SourceResolver.EmbedUrlNormalised | src/scraper.ts:283-291 | `//host` becomes `https://host`, other embed urls are kept, and no result is protocol-relative |
| SourceResolver.Resolve | src/scraper.ts:224-304 | the result of `getEpisodeUrl` from the `sourceUrls` it receives; stated by `ResolveByTier`, `ResolveFailsIff` and `EncodedTierWins`, and `GetEpisodeUrl` is proved equal to it |
| SourceResolver.FindEncodedLink | src/scraper.ts:233-267 | the first loop returns the link of the first encoded source whose fetch gives links, skipping failures |
| SourceResolver.FindDownloadUrl | src/scraper.ts:271-280 | the second loop returns the first non-empty `downloads.downloadUrl` |
| SourceResolver.FindEmbedUrl | src/scraper.ts:283-292 | the third loop returns the first plain source url, normalised |
| SourceResolver.GetEpisodeUrl | src/scraper.ts:224-304 | the sort, the three loops in order and the throw compute exactly `Resolve` |
| SourceResolver.TierOrderOutranksPriority | src/scraper.ts:233-292 | a download url at priority 1 beats a failing encoded source at 5 and an embed at 2 |
| Http.RequestHeaders | src/hlsDownloader.ts:73-94 | the user agent is always sent; a `Referer` header is present exactly when the referer is non-empty, and carries it |
| HlsDownloader.SelectBestStream | src/hlsDownloader.ts:23-26 | fails, with the empty-variants error, exactly when the playlist has no variants; which variant it picks is stated by `BestStreamIsFirstMaximum` |
| HlsDownloader.BestStreamIsFirstMaximum | src/hlsDownloader.ts:23-26 | the selected variant has the maximum bandwidth and is the first such in playlist order; an empty list fails |
| HlsDownloader.ReduceBestFrom | src/hlsDownloader.ts:24-26 | the strict-`>` fold keeps the earliest maximum seen so far |
| HlsDownloader.SelectsHigherBandwidth | src/hlsDownloader.ts:24-26 | of variants at 800000 and 1200000 the 1200000 one is chosen |
| HlsDownloader.ResolveUrl | src/hlsDownloader.ts:116-123 | an `http` uri as it is, any other joined to the base; stated by `AbsoluteUriUnchanged` |
| HlsDownloader.AbsoluteUriUnchanged | src/hlsDownloader.ts:116-123 | a uri starting with `http` comes back unchanged whatever url joining does; only other uris can fail to resolve |
| HlsDownloader.FetchedSlotsAllOnce | src/hlsDownloader.ts:47-63 | when every fetch succeeds, the k-th slot written is slot k: each slot exactly once, in order |
| HlsDownloader.FirstFailure | src/hlsDownloader.ts:52-62 | the first index whose fetch fails, with every earlier one succeeding; none exactly when all succeed |
| HlsDownloader.FlattenFetched | src/hlsDownloader.ts:108-110 | writing the filled buffers in index order gives the in-order concatenation of the fetched segments |
| HlsDownloader.AssembledLayout | src/hlsDownloader.ts:108-110 | segment k sits in the output right after the bytes of segments 0…k-1 |
| HlsDownloader.ProgressRange | src/hlsDownloader.ts:56 | the displayed range `i+1..min(i+10,n)` lies within 1..n and counts exactly the segments of the batch |
| HlsDownloader.DownloadSegments | src/hlsDownloader.ts:47-63 | a fresh array of n slots. Batches start at 0, 10, 20, …, and there are ceil(n/10) of them when all succeed, the last one holding 1 to 10 segments. Slot k holds the fetch result of segment k. On a failure the loop stops after the batch of the first failing segment, and no later slot is written |
| HlsDownloader.RunBatches | src/hlsDownloader.ts:50-62 | the `for` over `i = 0, 10, …`: when no batch fails every slot holds its fetch result and the batch count is the least that covers n; otherwise the loop stops at the batch start after which fetches first fail, every earlier fetch succeeded and no later slot is written |
| HlsDownloader.FetchBatch | src/hlsDownloader.ts:51-62 | every fetch of the batch is attempted; slot `i + chunkIndex` gets its segment and no other slot changes |
| HlsDownloader.FetchSegment | src/hlsDownloader.ts:52-57 | one callback resolves the segment's uri against the playlist url and fetches it; an unresolvable uri gives no data |
| HlsDownloader.FirstFailureInBatch | src/hlsDownloader.ts:50-62 | the failing batch is the one containing the first failing segment |
| HlsDownloader.FileSystem.MakeDirectory | src/hlsDownloader.ts:98 | the directory is added and files are untouched |
| HlsDownloader.FileSystem.CreateFile | src/hlsDownloader.ts:101 | the output file exists and is empty |
| HlsDownloader.FileSystem.Append | src/hlsDownloader.ts:109 | the data is appended to that file only |
| HlsDownloader.CombineSegments | src/hlsDownloader.ts:96-114 | the output directory is created and the file holds the buffers concatenated in index order |
| HlsDownloader.HlsOutcome | src/hlsDownloader.ts:9-71 | the bytes of the output file, or the error `downloadHLS` throws, step by step; `DownloadHls` is proved to produce it |
| HlsDownloader.DownloadHls | src/hlsDownloader.ts:9-71 | fails exactly when the step-by-step outcome fails, with the same error and the disk unchanged; otherwise the output file holds the assembled stream |
| Downloader.OrElse | src/downloader.ts:53 | `a \|\| b` on optional strings: `a` when it is non-empty, else `b` |
| Downloader.DigitRun | src/downloader.ts:228 | the longest prefix of digits of the radix |
| Downloader.ParseInt | src/downloader.ts:228 | `parseInt` without a radix: leading white space, an optional sign, then the digits; stated by `ParseDecimal`, `ParseIntFromDigits` and `ZeroParses` |
| Downloader.ParseDecimal | src/downloader.ts:228 | `parseInt` of a number's decimal text gives the number back |
| Downloader.ParseIntFromDigits | src/downloader.ts:228 | a string of decimal digits is read with no sign, white space or radix prefix |
| Downloader.ContentType | src/downloader.ts:227 | a missing content type counts as the empty string |
| Strings.ToLower | src/downloader.ts:227 | the lowered content type has the same length and each character ASCII-lowered |
| Downloader.HeadAccepts | src/downloader.ts:227-240 | the seven ways a HEAD response is accepted; `HtmlPageRejected` and `MissingHeadersRejected` show responses it rejects |
| Downloader.GetAccepts | src/downloader.ts:254-258 | only `video/` or `application/octet-stream` accepts the ranged GET; `RangeCheck` is proved to compute it |
| Downloader.LooksLikeVideo | src/downloader.ts:216-274 | the HEAD is accepted, or its status is 400 or more and the ranged GET is accepted; `ValidateVideoUrl` is proved to compute it |
| Downloader.ValidateVideoUrl | src/downloader.ts:216-274 | the answer is true exactly when the HEAD is accepted, or its status is 400 or more and the ranged GET is accepted; a throwing request means false; the GET is sent only in that fallback case |
| Downloader.GetOnlyAfterFailedHead | src/downloader.ts:243-269 | a second request implies a HEAD status of 400 or more; below 400 the answer is the HEAD predicate alone |
| Downloader.RangeCheck | src/downloader.ts:243-261 | the ranged GET accepts exactly `video/` or `application/octet-stream` content; a throwing request means false |
| Downloader.HtmlPageRejected | src/downloader.ts:227-269 | a 200 `TEXT/HTML` page of 5120 bytes is rejected with no GET |
| Downloader.RejectedHeadEndsValidation | src/downloader.ts:216-269 | a HEAD below 400 that the predicate rejects ends validation with false after that single request |
| Downloader.MissingHeadersRejected | src/downloader.ts:227-237 | missing headers count as `""` and 0, which accept nothing |
| Downloader.InsertAt | src/downloader.ts:134 | `splice(i, 0, …)` keeps the prefix, inserts the items at `i` and shifts the rest |
| Downloader.PushRefererAndUrl | src/downloader.ts:114-118 | the fixed options, then `--referer <ref>` exactly when the referer is non-empty, then the url last |
| Downloader.RunYtDlpWithFFmpeg | src/downloader.ts:105-121 | program `yt-dlp`; its fixed options, the optional referer pair, the url last |
| Downloader.RunFFmpeg | src/downloader.ts:123-138 | program `ffmpeg`; without a referer exactly the ten fixed arguments, with one `-referer <ref>` at index 2; the output path last |
| Downloader.FFmpegArgCount | src/downloader.ts:124-135 | 10 or 12 arguments, and the url right after `-i` |
| Downloader.RunAria2c | src/downloader.ts:140-163 | program `aria2c`; `--dir` gets the dirname and `-o` the basename of the output path; optional referer pair; url last |
| Downloader.RunWget | src/downloader.ts:165-180 | program `wget`; `--output-document <path>`, optional referer pair, url last |
| Downloader.RunCurl | src/downloader.ts:182-196 | program `curl`; `--output <path>`, optional referer pair, url last |
| Downloader.DownloadReferer | src/downloader.ts:52-56 | an m3u8 url gets `referer \|\| m3u8Referer`, any other url `referer` only |
| Downloader.ToolPreference | src/downloader.ts:74-102 | m3u8: ffmpeg, else yt-dlp only when enabled and installed, else the error. Direct: aria2c only when enabled and installed, else wget, else curl, else nothing |
| Downloader.ChooseTool | src/downloader.ts:74-102 | only a playlist can fail; a playlist never gets a direct tool and a direct url never a playlist tool; only a direct url can find no tool; the order of preference is stated by `ToolPreference` |
| Downloader.DownloadM3u8 | src/downloader.ts:74-85 | starts the tool the preference picks, with its argument vector, on `<dir>/<filename>.mp4` |
| Downloader.DownloadDirect | src/downloader.ts:87-102 | starts the tool the preference picks, or nothing when none is installed |
| Downloader.Prepare | src/downloader.ts:44-50 | the download directory is created, then the subtitle is fetched to `<dir>/<filename>.vtt` exactly when one is given |
| Downloader.StartDownload | src/downloader.ts:52-56 | an m3u8 url starts the playlist tool with `referer \|\| m3u8Referer`, any other url the direct tool with `referer`, on `<dir>/<filename>.mp4` |
| Downloader.Download | src/downloader.ts:14-57 | a placeholder url causes no effect at all. An invalid url causes only the validation requests. A valid url causes the validation requests, then the directory, then the subtitle fetch when given, then the spawn of the chosen tool (or the playlist error) |

## Left out

- Network and disk I/O: axios requests, timeouts, response streams and `fs` calls are
  parameters, a returned effect log, or the `FileSystem` object. Write-stream errors are not
  modelled: every write succeeds.
- The m3u8 parser: a fetched playlist is given already parsed as a `Manifest`. A variant
  without `BANDWIDTH` (an `undefined` comparison in the code) is not modelled, since every
  variant carries an integer bandwidth.
- WHATWG relative url resolution: `new URL(relative, base)` is the `joinUrl` oracle, and only
  the `http` prefix branch of `resolveUrl` is decided in the model.
- `Promise.all` concurrency: batches run one after the other. Inside a batch every fetch is
  attempted and each fills its own slot, so completion order does not matter. The error
  reported for a failing batch is `SegmentFetchFailed(batchStart)` rather than the first
  rejection's own error.
- `spawn`, `commandExists` and the exit code of `runCommand`: tool availability is a boolean
  input, and a spawned tool is taken to finish with code 0.
- The subtitle download: it is a logged `FetchSubtitle` effect that always succeeds. In the
  code only a failed `axios.get` is swallowed: a write error rejects the returned promise
  after the `try` has exited, which aborts `download` before any tool is spawned, and an
  error on the response stream is not passed on by `pipe`, so `download` hangs. Neither is
  modelled.
- Console and progress output, ANSI colours, the placeholder's `encoded-source-` name
  extraction (it only chooses a log message) and the kbps `Math.round` display.
- The HTML check on the ranged GET body: it changes only the message, since the answer is
  false either way.
- Downloader.ContentType: lower-cases ASCII letters only, not the full Unicode `toLowerCase`.
- Downloader.ParseInt: a `Content-Length` is read as an exact integer, not a double; digits
  beyond double precision are not rounded.
- SourceResolver.SortByPriority: computes the sorted list as a new value; the in-place
  mutation of the API response array by `sort` is not modelled. JSON fields of unexpected
  types (a non-string `sourceUrl`, a non-number `priority`) are outside the model's types.
- ProviderId.HexPairs: pairs Unicode scalar values, while `/.{2}/g` without the `u` flag
  pairs UTF-16 code units. An id with a character outside the Basic Multilingual Plane pairs
  differently (after it the pairs are shifted by one unit), and lone surrogates cannot be
  represented. On ids made of BMP characters, such as every hex id, the two agree.
- SourceResolver.FindEncodedLink: a link record without a `link` field is not modelled.
- The GraphQL request that yields `sourceUrls`, and `searchAnime`/`getEpisodesList` of the
  scraper: network requests, with a floating-point sort of episode numbers.
- `src/cli.ts`, `src/imdb.ts` and `src/index.ts` (prompts, the IMDB scraper, flag parsing)
  are not part of this model; `src/types.ts` only guided the datatypes.
