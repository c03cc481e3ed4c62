/** The source-selection part of the scraper's `getEpisodeUrl`: the candidate sources of
    an episode are sorted by priority, highest first, and tried in three tiers (encoded
    sources, download urls, plain embed urls); the first tier that yields a url wins. The
    one network step, fetching the links of a decoded url, is the oracle `fetchLinks`:
    `None` stands for a request that throws or a response without a `links` list. */
module SourceResolver {
  import opened Wrappers
  import opened Strings
  import ProviderId

  const ProviderReferer := "https://allmanga.to"
  const ProviderBase := "allanime.day"

  datatype Downloads = Downloads(downloadUrl: Option<string>)

  /** One element of `data.episode.sourceUrls`. */
  datatype Source = Source(
    sourceUrl: Option<string>,
    sourceName: string,
    priority: Option<int>,
    downloads: Option<Downloads>)

  datatype Link = Link(link: string)

  /** The value `getEpisodeUrl` returns. */
  datatype EpisodeTarget = EpisodeTarget(url: string, subtitle: Option<string>, referer: Option<string>)

  /** `throw new Error('No sources available for this episode')`. */
  datatype ResolveError = NoSourcesAvailable

  datatype Tier = Encoded | DirectDownload | Embed

  type LinkFetcher = string -> Option<seq<Link>>

  /** `source.priority || 0`. */
  function Priority(s: Source): int
  {
    if s.priority.Some? then s.priority.value else 0
  }

  // ---------------------------------------------------------------------------
  // `sourceUrls.sort((a, b) => (b.priority || 0) - (a.priority || 0))`: a stable sort,
  // highest priority first.

  predicate SortedByPriority(ss: seq<Source>)
  {
    forall i, j :: 0 <= i < j < |ss| ==> Priority(ss[i]) >= Priority(ss[j])
  }

  /** Places `x` before the first element whose priority is not higher than its own. */
  function Insert(x: Source, ss: seq<Source>): (r: seq<Source>)
    requires SortedByPriority(ss)
    ensures SortedByPriority(r)
    ensures forall j :: 0 <= j < |r| ==>
      Priority(r[j]) <= Priority(x) || (|ss| > 0 && Priority(r[j]) <= Priority(ss[0]))
  {
    if |ss| == 0 then [x]
    else if Priority(x) >= Priority(ss[0]) then [x] + ss
    else
      var t := Insert(x, ss[1..]);
      assert ss == [ss[0]] + ss[1..];
      assert forall j :: 0 <= j < |t| ==> Priority(ss[0]) >= Priority(t[j]) by {
        assert |ss| > 1 ==> Priority(ss[0]) >= Priority(ss[1..][0]);
      }
      [ss[0]] + t
  }

  function SortByPriority(sources: seq<Source>): (r: seq<Source>)
    ensures SortedByPriority(r)
    ensures multiset(r) == multiset(sources)
  {
    if |sources| == 0 then []
    else
      assert sources == [sources[0]] + sources[1..];
      InsertPermutes(sources[0], SortByPriority(sources[1..]));
      Insert(sources[0], SortByPriority(sources[1..]))
  }

  /** Inserting adds exactly the new source: nothing is lost or duplicated. */
  lemma {:induction false} InsertPermutes(x: Source, ss: seq<Source>)
    requires SortedByPriority(ss)
    ensures multiset(Insert(x, ss)) == multiset(ss) + multiset{x}
  {
    if |ss| > 0 && Priority(x) < Priority(ss[0]) {
      InsertPermutes(x, ss[1..]);
      assert ss == [ss[0]] + ss[1..];
    }
  }

  /** The sources of priority `k`, in order. */
  function WithPriority(ss: seq<Source>, k: int): seq<Source>
  {
    if |ss| == 0 then []
    else (if Priority(ss[0]) == k then [ss[0]] else []) + WithPriority(ss[1..], k)
  }

  lemma {:induction false} InsertKeepsTies(x: Source, ss: seq<Source>, k: int)
    requires SortedByPriority(ss)
    ensures WithPriority(Insert(x, ss), k) ==
      (if Priority(x) == k then [x] else []) + WithPriority(ss, k)
  {
    var here := if Priority(x) == k then [x] else [];
    if |ss| == 0 {
      assert Insert(x, ss) == [x];
      assert [x][1..] == [];
    } else if Priority(x) >= Priority(ss[0]) {
      assert Insert(x, ss) == [x] + ss;
      assert ([x] + ss)[1..] == ss;
    } else {
      var rest := ss[1..];
      var t := Insert(x, rest);
      assert Insert(x, ss) == [ss[0]] + t;
      assert WithPriority(t, k) == here + WithPriority(rest, k) by {
        assert SortedByPriority(rest) by {
          assert forall i :: 0 <= i < |rest| ==> rest[i] == ss[i + 1];
        }
        InsertKeepsTies(x, rest, k);
      }
      assert ([ss[0]] + t)[1..] == t;
      if Priority(ss[0]) == k {
        assert here == [];
        assert WithPriority([ss[0]] + t, k) == [ss[0]] + WithPriority(t, k);
        assert WithPriority(ss, k) == [ss[0]] + WithPriority(rest, k);
      } else {
        assert WithPriority([ss[0]] + t, k) == WithPriority(t, k);
        assert WithPriority(ss, k) == WithPriority(rest, k);
      }
    }
  }

  /** The sort is stable: sources of equal priority keep the order of the API response. */
  lemma {:induction false} SortIsStable(sources: seq<Source>, k: int)
    ensures WithPriority(SortByPriority(sources), k) == WithPriority(sources, k)
  {
    if |sources| > 0 {
      SortIsStable(sources[1..], k);
      InsertKeepsTies(sources[0], SortByPriority(sources[1..]), k);
    }
  }

  // ---------------------------------------------------------------------------
  // The tiers

  /** `https://${allanimeBase}${decodeProviderId(sourceUrl)}`. */
  function DecodedUrl(sourceUrl: string): string
  {
    "https://" + ProviderBase + ProviderId.DecodeProviderId(sourceUrl)
  }

  /** An embed url with a protocol-relative `//host` completed to `https://host`. */
  function NormaliseEmbed(u: string): string
  {
    if StartsWith(u, "//") then "https:" + u else u
  }

  /** What one source yields in one tier, if anything. */
  function Candidate(tier: Tier, s: Source, fetchLinks: LinkFetcher): Option<string>
  {
    match tier
    case Encoded =>
      if s.sourceUrl.Some? && StartsWith(s.sourceUrl.value, ProviderId.Marker) then
        match fetchLinks(DecodedUrl(s.sourceUrl.value))
        case Some(links) => if |links| > 0 then Some(links[0].link) else None
        case None => None
      else None
    case DirectDownload =>
      if s.downloads.Some? && s.downloads.value.downloadUrl.Some? && s.downloads.value.downloadUrl.value != ""
      then s.downloads.value.downloadUrl
      else None
    case Embed =>
      if s.sourceUrl.Some? && s.sourceUrl.value != "" && !StartsWith(s.sourceUrl.value, ProviderId.Marker)
      then Some(NormaliseEmbed(s.sourceUrl.value))
      else None
  }

  /** `Candidate` of one tier, as a function of the source. */
  function Yields(tier: Tier, fetchLinks: LinkFetcher): Source -> Option<string>
  {
    s => Candidate(tier, s, fetchLinks)
  }

  /** The first source of `ss` for which `gives` yields something. */
  function FirstHit(ss: seq<Source>, gives: Source -> Option<string>): (r: Option<Source>)
    ensures r.Some? ==> r.value in ss && gives(r.value).Some?
    ensures r.Some? ==> exists i :: 0 <= i < |ss| && ss[i] == r.value && forall j :: 0 <= j < i ==> gives(ss[j]).None?
    ensures r.None? <==> forall i :: 0 <= i < |ss| ==> gives(ss[i]).None?
  {
    if |ss| == 0 then None
    else if gives(ss[0]).Some? then
      Some(ss[0])
    else
      var r := FirstHit(ss[1..], gives);
      assert forall i :: 1 <= i < |ss| ==> ss[i] == ss[1..][i - 1];
      assert r.Some? ==> exists i :: 0 <= i < |ss| && ss[i] == r.value && forall j :: 0 <= j < i ==> gives(ss[j]).None? by {
        if r.Some? {
          var i :| 0 <= i < |ss[1..]| && ss[1..][i] == r.value && forall j :: 0 <= j < i ==> gives(ss[1..][j]).None?;
          assert ss[i + 1] == r.value;
        }
      }
      r
  }

  /** The url the first hit of `tier` yields, if any. */
  function TierUrl(ss: seq<Source>, tier: Tier, fetchLinks: LinkFetcher): Option<string>
  {
    match FirstHit(ss, Yields(tier, fetchLinks))
    case Some(s) => Candidate(tier, s, fetchLinks)
    case None => None
  }

  /** The tiers tried in order; the first tier with a hit gives the url. */
  function FirstTierUrl(ss: seq<Source>, fetchLinks: LinkFetcher): Option<string>
  {
    if TierUrl(ss, Encoded, fetchLinks).Some? then TierUrl(ss, Encoded, fetchLinks)
    else if TierUrl(ss, DirectDownload, fetchLinks).Some? then TierUrl(ss, DirectDownload, fetchLinks)
    else TierUrl(ss, Embed, fetchLinks)
  }

  function Target(url: string): EpisodeTarget
  {
    EpisodeTarget(url, None, Some(ProviderReferer))
  }

  /** What `getEpisodeUrl` returns for the `sourceUrls` of the API response. */
  function Resolve(sourceUrls: Option<seq<Source>>, fetchLinks: LinkFetcher): Result<EpisodeTarget, ResolveError>
  {
    if sourceUrls.None? || |sourceUrls.value| == 0 then Failure(NoSourcesAvailable)
    else match FirstTierUrl(SortByPriority(sourceUrls.value), fetchLinks)
      case Some(url) => Success(Target(url))
      case None => Failure(NoSourcesAvailable)
  }

  // ---------------------------------------------------------------------------
  // What the tiers choose, stated on the unsorted API response

  /** Reference definition without sorting: one pass over the response keeping the
      candidate of highest priority, the earlier one on a tie. */
  function Best(sources: seq<Source>, gives: Source -> Option<string>): Option<Source>
  {
    if |sources| == 0 then None
    else
      var rest := Best(sources[1..], gives);
      if gives(sources[0]).None? then rest
      else if rest.None? || Priority(sources[0]) >= Priority(rest.value) then Some(sources[0])
      else rest
  }

  /** `Best` is the earliest of the highest-priority sources that yield something in the tier. */
  lemma BestIsEarliestHighest(sources: seq<Source>, gives: Source -> Option<string>)
    ensures Best(sources, gives).None? <==>
      forall j :: 0 <= j < |sources| ==> gives(sources[j]).None?
    ensures Best(sources, gives).Some? ==>
      exists i :: 0 <= i < |sources| && sources[i] == Best(sources, gives).value
        && gives(sources[i]).Some?
        && (forall j :: 0 <= j < |sources| && gives(sources[j]).Some? ==>
              Priority(sources[j]) <= Priority(sources[i]))
        && (forall j :: 0 <= j < i && gives(sources[j]).Some? ==>
              Priority(sources[j]) < Priority(sources[i]))
  {
    BestNone(sources, gives);
    if Best(sources, gives).Some? {
      BestAtIndex(sources, gives);
    }
  }

  /** Where `Best` found its source. */
  ghost function BestIndex(sources: seq<Source>, gives: Source -> Option<string>): nat
    requires Best(sources, gives).Some?
  {
    var rest := Best(sources[1..], gives);
    if gives(sources[0]).Some? && (rest.None? || Priority(sources[0]) >= Priority(rest.value)) then 0
    else 1 + BestIndex(sources[1..], gives)
  }

  lemma {:induction false} BestNone(sources: seq<Source>, gives: Source -> Option<string>)
    ensures Best(sources, gives).None? <==>
      forall j :: 0 <= j < |sources| ==> gives(sources[j]).None?
  {
    if |sources| > 0 {
      BestNone(sources[1..], gives);
      assert forall j :: 1 <= j < |sources| ==> sources[j] == sources[1..][j - 1];
    }
  }

  lemma {:induction false} BestAtIndex(sources: seq<Source>, gives: Source -> Option<string>)
    requires Best(sources, gives).Some?
    ensures var i := BestIndex(sources, gives);
      i < |sources| && sources[i] == Best(sources, gives).value && gives(sources[i]).Some?
      && (forall j :: 0 <= j < |sources| && gives(sources[j]).Some? ==>
            Priority(sources[j]) <= Priority(sources[i]))
      && (forall j :: 0 <= j < i && gives(sources[j]).Some? ==>
            Priority(sources[j]) < Priority(sources[i]))
  {
    var rest := sources[1..];
    var br := Best(rest, gives);
    assert forall j :: 1 <= j < |sources| ==> sources[j] == rest[j - 1];
    if br.Some? {
      BestAtIndex(rest, gives);
    } else {
      BestNone(rest, gives);
    }
  }

  /** Inserting one source into a sorted list changes its first hit exactly as one step of `Best`. */
  lemma {:induction false} InsertFirstHit(x: Source, ss: seq<Source>, gives: Source -> Option<string>)
    requires SortedByPriority(ss)
    ensures FirstHit(Insert(x, ss), gives) ==
      var rest := FirstHit(ss, gives);
      if gives(x).None? then rest
      else if rest.None? || Priority(x) >= Priority(rest.value) then Some(x)
      else rest
  {
    if |ss| == 0 {
    } else if Priority(x) >= Priority(ss[0]) {
      assert ([x] + ss)[1..] == ss;
      var rest := FirstHit(ss, gives);
      if rest.Some? {
        var m :| 0 <= m < |ss| && ss[m] == rest.value;
        assert Priority(ss[0]) >= Priority(ss[m]) by { assert m == 0 || 0 < m; }
      }
    } else {
      assert ([ss[0]] + Insert(x, ss[1..]))[1..] == Insert(x, ss[1..]);
      InsertFirstHit(x, ss[1..], gives);
    }
  }

  /** Sorting and taking the first hit is the same as `Best` on the response as it came. */
  lemma {:induction false} SortedFirstHitIsBest(sources: seq<Source>, gives: Source -> Option<string>)
    ensures FirstHit(SortByPriority(sources), gives) == Best(sources, gives)
  {
    if |sources| > 0 {
      SortedFirstHitIsBest(sources[1..], gives);
      InsertFirstHit(sources[0], SortByPriority(sources[1..]), gives);
    }
  }

  /** The url a tier yields, found by `Best` on the response as it came. */
  function BestUrl(sources: seq<Source>, tier: Tier, fetchLinks: LinkFetcher): Option<string>
  {
    match Best(sources, Yields(tier, fetchLinks))
    case Some(s) => Candidate(tier, s, fetchLinks)
    case None => None
  }

  /** The whole selection: the encoded tier if any encoded source yields a link, else the
      download tier, else the embed tier, else the error; within the tier, the earliest of the
      highest-priority sources that yield something. Priorities never carry across tiers. */
  lemma ResolveByTier(sources: seq<Source>, fetchLinks: LinkFetcher)
    requires |sources| > 0
    ensures Resolve(Some(sources), fetchLinks) ==
      if BestUrl(sources, Encoded, fetchLinks).Some? then Success(Target(BestUrl(sources, Encoded, fetchLinks).value))
      else if BestUrl(sources, DirectDownload, fetchLinks).Some? then Success(Target(BestUrl(sources, DirectDownload, fetchLinks).value))
      else if BestUrl(sources, Embed, fetchLinks).Some? then Success(Target(BestUrl(sources, Embed, fetchLinks).value))
      else Failure(NoSourcesAvailable)
  {
    SortedFirstHitIsBest(sources, Yields(Encoded, fetchLinks));
    SortedFirstHitIsBest(sources, Yields(DirectDownload, fetchLinks));
    SortedFirstHitIsBest(sources, Yields(Embed, fetchLinks));
  }

  /** The call throws exactly when the list is missing or empty, or no source yields
      anything in any tier. */
  lemma ResolveFailsIff(sourceUrls: Option<seq<Source>>, fetchLinks: LinkFetcher)
    ensures Resolve(sourceUrls, fetchLinks).Failure? <==>
      sourceUrls.None? ||
      forall tier: Tier, j :: 0 <= j < |sourceUrls.value| ==> Candidate(tier, sourceUrls.value[j], fetchLinks).None?
  {
    if sourceUrls.Some? && |sourceUrls.value| > 0 {
      var sources := sourceUrls.value;
      ResolveByTier(sources, fetchLinks);
      BestIsEarliestHighest(sources, Yields(Encoded, fetchLinks));
      BestIsEarliestHighest(sources, Yields(DirectDownload, fetchLinks));
      BestIsEarliestHighest(sources, Yields(Embed, fetchLinks));
    }
  }

  lemma BestYields(sources: seq<Source>, gives: Source -> Option<string>)
    ensures Best(sources, gives).Some? ==> gives(Best(sources, gives).value).Some?
  {
    BestIsEarliestHighest(sources, gives);
  }

  /** What an encoded candidate is: a source marked `--` whose decoded url, fetched, has a
      non-empty `links` list; it yields the first link. */
  lemma EncodedCandidate(s: Source, fetchLinks: LinkFetcher)
    ensures Candidate(Encoded, s, fetchLinks).Some? <==>
      s.sourceUrl.Some? && StartsWith(s.sourceUrl.value, "--") &&
      fetchLinks(DecodedUrl(s.sourceUrl.value)).Some? && |fetchLinks(DecodedUrl(s.sourceUrl.value)).value| > 0
    ensures Candidate(Encoded, s, fetchLinks).Some? ==>
      Candidate(Encoded, s, fetchLinks).value == fetchLinks(DecodedUrl(s.sourceUrl.value)).value[0].link
  {
  }

  /** An encoded-tier winner decides the result: the first link fetched from
      `https://allanime.day` plus its decoded path, with the provider referer and no subtitle. */
  lemma EncodedTierWins(sources: seq<Source>, fetchLinks: LinkFetcher)
    requires Best(sources, Yields(Encoded, fetchLinks)).Some?
    ensures var s := Best(sources, Yields(Encoded, fetchLinks)).value;
      && s.sourceUrl.Some?
      && var fetched := fetchLinks("https://allanime.day" + ProviderId.DecodeProviderId(s.sourceUrl.value));
      && fetched.Some? && |fetched.value| > 0
      && Resolve(Some(sources), fetchLinks) ==
           Success(EpisodeTarget(fetched.value[0].link, None, Some("https://allmanga.to")))
  {
    EncodedBestUrl(sources, fetchLinks);
    ResolveByTier(sources, fetchLinks);
  }

  /** The encoded tier's url is the first link of the winner's decoded-url fetch. */
  lemma EncodedBestUrl(sources: seq<Source>, fetchLinks: LinkFetcher)
    requires Best(sources, Yields(Encoded, fetchLinks)).Some?
    ensures |sources| > 0
    ensures var s := Best(sources, Yields(Encoded, fetchLinks)).value;
      && s.sourceUrl.Some?
      && var fetched := fetchLinks("https://allanime.day" + ProviderId.DecodeProviderId(s.sourceUrl.value));
      && fetched.Some? && |fetched.value| > 0
      && BestUrl(sources, Encoded, fetchLinks) == Some(fetched.value[0].link)
  {
    var s := Best(sources, Yields(Encoded, fetchLinks)).value;
    BestYields(sources, Yields(Encoded, fetchLinks));
    assert Candidate(Encoded, s, fetchLinks).Some?;
    EncodedCandidate(s, fetchLinks);
    assert DecodedUrl(s.sourceUrl.value) == "https://allanime.day" + ProviderId.DecodeProviderId(s.sourceUrl.value);
  }

  /** Embed urls are never protocol-relative: `//host` becomes `https://host`, others are kept. */
  lemma EmbedUrlNormalised(s: Source, fetchLinks: LinkFetcher)
    requires Candidate(Embed, s, fetchLinks).Some?
    ensures StartsWith(s.sourceUrl.value, "//") ==>
      Candidate(Embed, s, fetchLinks).value == "https:" + s.sourceUrl.value
    ensures !StartsWith(s.sourceUrl.value, "//") ==> Candidate(Embed, s, fetchLinks).value == s.sourceUrl.value
    ensures !StartsWith(Candidate(Embed, s, fetchLinks).value, "//")
  {
  }

  /** The first loop of `getEpisodeUrl`: encoded sources, decoded and fetched in turn;
      a failed fetch or an empty `links` list moves on to the next one. */
  method FindEncodedLink(sortedSources: seq<Source>, fetchLinks: LinkFetcher) returns (url: Option<string>)
    ensures url == TierUrl(sortedSources, Encoded, fetchLinks)
  {
    for i := 0 to |sortedSources|
      invariant FirstHit(sortedSources, Yields(Encoded, fetchLinks)) == FirstHit(sortedSources[i..], Yields(Encoded, fetchLinks))
    {
      var source := sortedSources[i];
      assert sortedSources[i..][1..] == sortedSources[i + 1..];
      if source.sourceUrl.Some? && StartsWith(source.sourceUrl.value, ProviderId.Marker) {
        var decodedUrl := ProviderId.DecodeProviderId(source.sourceUrl.value);
        var fullUrl := "https://" + ProviderBase + decodedUrl;
        var videoData := fetchLinks(fullUrl);
        if videoData.Some? && |videoData.value| > 0 {
          assert FirstHit(sortedSources[i..], Yields(Encoded, fetchLinks)) == Some(source);
          return Some(videoData.value[0].link);
        }
      }
    }
    return None;
  }

  /** The second loop: the first source with a `downloads.downloadUrl`. */
  method FindDownloadUrl(sortedSources: seq<Source>, fetchLinks: LinkFetcher) returns (url: Option<string>)
    ensures url == TierUrl(sortedSources, DirectDownload, fetchLinks)
  {
    for i := 0 to |sortedSources|
      invariant FirstHit(sortedSources, Yields(DirectDownload, fetchLinks)) == FirstHit(sortedSources[i..], Yields(DirectDownload, fetchLinks))
    {
      var source := sortedSources[i];
      assert sortedSources[i..][1..] == sortedSources[i + 1..];
      if source.downloads.Some? && source.downloads.value.downloadUrl.Some? && source.downloads.value.downloadUrl.value != "" {
        assert FirstHit(sortedSources[i..], Yields(DirectDownload, fetchLinks)) == Some(source);
        return source.downloads.value.downloadUrl;
      }
    }
    return None;
  }

  /** The third loop: the first plain (not encoded) source url, protocol-relative ones completed. */
  method FindEmbedUrl(sortedSources: seq<Source>, fetchLinks: LinkFetcher) returns (url: Option<string>)
    ensures url == TierUrl(sortedSources, Embed, fetchLinks)
  {
    for i := 0 to |sortedSources|
      invariant FirstHit(sortedSources, Yields(Embed, fetchLinks)) == FirstHit(sortedSources[i..], Yields(Embed, fetchLinks))
    {
      var source := sortedSources[i];
      assert sortedSources[i..][1..] == sortedSources[i + 1..];
      if source.sourceUrl.Some? && source.sourceUrl.value != "" && !StartsWith(source.sourceUrl.value, ProviderId.Marker) {
        var u := source.sourceUrl.value;
        assert FirstHit(sortedSources[i..], Yields(Embed, fetchLinks)) == Some(source);
        return Some(if StartsWith(u, "//") then "https:" + u else u);
      }
    }
    return None;
  }

  /** `getEpisodeUrl` from the moment the API response is in hand: sort, then the three
      loops in order, then the throw. */
  method GetEpisodeUrl(sourceUrls: Option<seq<Source>>, fetchLinks: LinkFetcher)
    returns (r: Result<EpisodeTarget, ResolveError>)
    ensures r == Resolve(sourceUrls, fetchLinks)
  {
    if sourceUrls.None? || |sourceUrls.value| == 0 {
      return Failure(NoSourcesAvailable);
    }
    var sortedSources := SortByPriority(sourceUrls.value);
    var url := FindEncodedLink(sortedSources, fetchLinks);
    if url.Some? {
      return Success(Target(url.value));
    }
    url := FindDownloadUrl(sortedSources, fetchLinks);
    if url.Some? {
      return Success(Target(url.value));
    }
    url := FindEmbedUrl(sortedSources, fetchLinks);
    if url.Some? {
      return Success(Target(url.value));
    }
    return Failure(NoSourcesAvailable);
  }

  /** Tier order outranks priority: a decode that leads nowhere at priority 5 and an embed at
      priority 2 lose to a download url at priority 1. */
  lemma TierOrderOutranksPriority(fetchLinks: LinkFetcher)
    requires forall u :: fetchLinks(u).None?
    ensures Resolve(Some([
        Source(None, "dl", Some(1), Some(Downloads(Some("d1")))),
        Source(Some("--7a7b"), "encoded", Some(5), None),
        Source(Some("https://embed"), "embed", Some(2), None)]), fetchLinks)
      == Success(EpisodeTarget("d1", None, Some(ProviderReferer)))
  {
    var d := Source(None, "dl", Some(1), Some(Downloads(Some("d1"))));
    var e := Source(Some("--7a7b"), "encoded", Some(5), None);
    var m := Source(Some("https://embed"), "embed", Some(2), None);
    var sources := [d, e, m];
    forall j | 0 <= j < |sources| ensures Candidate(Encoded, sources[j], fetchLinks).None? {
      EncodedCandidate(sources[j], fetchLinks);
    }
    BestIsEarliestHighest(sources, Yields(Encoded, fetchLinks));
    assert Candidate(DirectDownload, d, fetchLinks) == Some("d1");
    assert Candidate(DirectDownload, e, fetchLinks).None?;
    assert Candidate(DirectDownload, m, fetchLinks).None?;
    var y := Yields(DirectDownload, fetchLinks);
    assert y(d) == Some("d1") && y(e).None? && y(m).None?;
    assert [m][1..] == [];
    assert Best([m], y).None?;
    assert [e, m][1..] == [m];
    assert Best([e, m], y).None?;
    assert sources[1..] == [e, m];
    assert Best(sources, y) == Some(d);
    ResolveByTier(sources, fetchLinks);
  }
}
