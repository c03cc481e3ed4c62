/** Request headers shared by the playlist, segment and validation requests. */
module Http {
  import opened Wrappers

  const Agent := "Mozilla/5.0 (Windows NT 10.0; Win64; x64; rv:109.0) Gecko/20100101 Firefox/121.0"

  /** Request headers, as name/value pairs. */
  type Headers = seq<(string, string)>

  /** The headers of every playlist and segment request: the user agent, and the referer only
      when one was given and it is not empty (`...(referer && { Referer: referer })`). */
  function RequestHeaders(referer: Option<string>): (h: Headers)
    ensures |h| >= 1 && h[0] == ("User-Agent", Agent)
    ensures (exists k :: 0 <= k < |h| && h[k].0 == "Referer")
      <==> referer.Some? && referer.value != ""
    ensures forall k :: 0 <= k < |h| && h[k].0 == "Referer" ==> referer.Some? && h[k].1 == referer.value
  {
    if referer.Some? && referer.value != "" then
      var h := [("User-Agent", Agent), ("Referer", referer.value)];
      assert h[1].0 == "Referer";
      h
    else [("User-Agent", Agent)]
  }
}
