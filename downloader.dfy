/** The `Downloader` class: the dispatch of `download`, the "looks like video" check of
    `validateVideoUrl`, and the argument vectors handed to ffmpeg, yt-dlp, aria2c, wget and curl.
    HTTP requests, path operations and tool availability are inputs; the effects a call would
    have (requests, directory creation, subtitle fetch, process spawn) are returned as a log. */
module Downloader {
  import opened Wrappers
  import opened Strings
  import opened Http

  /** `DownloadOptions`. */
  datatype DownloadOptions = DownloadOptions(
    url: string,
    filename: string,
    downloadDir: string,
    subtitle: Option<string>,
    referer: Option<string>,
    m3u8Referer: Option<string>)

  /** `DownloadConfig`, as far as the dispatch reads it. */
  datatype DownloadConfig = DownloadConfig(useYtDlp: bool, useAria2c: bool)

  /** Which commands `commandExists` reports as installed. */
  datatype Installed = Installed(ffmpeg: bool, ytDlp: bool, aria2c: bool, wget: bool, curl: bool)

  /** `path.join`, `path.dirname` and `path.basename`. */
  datatype PathOps = PathOps(
    join: (string, string) -> string,
    dirName: string -> string,
    baseName: string -> string)

  datatype Verb = Head | Get
  datatype Request = Request(verb: Verb, url: string, headers: Headers)

  /** A response as the check reads it; a header is `None` when the server did not send it. */
  datatype Response = Response(status: int, contentType: Option<string>, contentLength: Option<string>, body: string)

  /** `None`: the request threw (network error, timeout). Any status is accepted. */
  type HttpClient = Request -> Option<Response>

  datatype Command = Command(program: string, args: seq<string>)

  datatype Effect =
    | Send(request: Request)
    | MakeDirectory(dir: string)
    | FetchSubtitle(url: string, outputPath: string)
    | Spawn(command: Command)

  datatype DownloadError = FfmpegRequired

  datatype Tool = FFmpeg | YtDlp | Aria2c | Wget | Curl

  /** JavaScript truthiness of an optional string: present and not empty. */
  predicate Truthy(s: Option<string>)
  {
    s.Some? && s.value != ""
  }

  /** `a || b` on optional strings. */
  function OrElse(a: Option<string>, b: Option<string>): (r: Option<string>)
    ensures Truthy(r) <==> Truthy(a) || Truthy(b)
    ensures Truthy(a) ==> r == a
    ensures !Truthy(a) ==> r == b
  {
    if Truthy(a) then a else b
  }

  // ---------------------------------------------------------------------------
  // parseInt

  /** The white space `parseInt` skips before the number. */
  predicate IsJsWhiteSpace(c: char)
  {
    c == '\t' || c == '\n' || c == '\U{000B}' || c == '\U{000C}' || c == '\r' || c == ' '
    || c == '\U{00A0}' || c == '\U{1680}' || ('\U{2000}' <= c <= '\U{200A}')
    || c == '\U{2028}' || c == '\U{2029}' || c == '\U{202F}' || c == '\U{205F}'
    || c == '\U{3000}' || c == '\U{FEFF}'
  }

  function TrimStart(s: string): (r: string)
    ensures |r| <= |s| && r == s[|s| - |r|..]
    ensures |r| > 0 ==> !IsJsWhiteSpace(r[0])
  {
    if |s| > 0 && IsJsWhiteSpace(s[0]) then TrimStart(s[1..]) else s
  }

  /** The value of `c` as a digit in base `radix` (2 to 36), if it is one. */
  function DigitValue(c: char, radix: nat): (r: Option<nat>)
    ensures r.Some? ==> r.value < radix
  {
    var d: int :=
      if '0' <= c <= '9' then c as int - '0' as int
      else if 'a' <= c <= 'z' then c as int - 'a' as int + 10
      else if 'A' <= c <= 'Z' then c as int - 'A' as int + 10
      else radix;
    if 0 <= d < radix then Some(d) else None
  }

  /** The length of the longest prefix of `s` made of digits of base `radix`. */
  function DigitRun(s: string, radix: nat): (n: nat)
    ensures n <= |s|
    ensures forall k :: 0 <= k < n ==> DigitValue(s[k], radix).Some?
    ensures n < |s| ==> DigitValue(s[n], radix).None?
  {
    if |s| > 0 && DigitValue(s[0], radix).Some? then 1 + DigitRun(s[1..], radix) else 0
  }

  /** The radix `parseInt` reads in: 16 after a `0x` prefix, 10 otherwise. */
  function Radix(hex: bool): (r: nat)
    ensures r == 10 || r == 16
  {
    if hex then 16 else 10
  }

  /** The value of a run of digits, most significant first. */
  function DigitsValue(ds: string, hex: bool): nat
    requires forall k :: 0 <= k < |ds| ==> DigitValue(ds[k], Radix(hex)).Some?
  {
    if |ds| == 0 then 0
    else
      var high := DigitsValue(ds[..|ds| - 1], hex);
      var low := DigitValue(ds[|ds| - 1], Radix(hex)).value;
      if hex then high * 16 + low else high * 10 + low
  }

  /** The number after the sign: a `0x`/`0X` prefix selects hexadecimal, then the longest run
      of digits is read; `None` when there is no digit. */
  function ParseUnsigned(u: string): Option<nat>
  {
    var hex := |u| >= 2 && u[0] == '0' && (u[1] == 'x' || u[1] == 'X');
    var ds := if hex then u[2..] else u;
    var n := DigitRun(ds, Radix(hex));
    if n == 0 then None else Some(DigitsValue(ds[..n], hex))
  }

  /** `parseInt(s)` with no radix: leading white space, an optional sign, then the unsigned
      number; `None` is `NaN`. */
  function ParseInt(s: string): Option<int>
  {
    var t := TrimStart(s);
    var negative := |t| > 0 && t[0] == '-';
    var u := if |t| > 0 && (t[0] == '-' || t[0] == '+') then t[1..] else t;
    match ParseUnsigned(u)
    case None => None
    case Some(v) => Some(if negative then 0 - v else v)
  }

  /** The decimal digits of `n`. */
  function DecimalString(n: nat): (s: string)
    ensures |s| > 0 && forall k :: 0 <= k < |s| ==> '0' <= s[k] <= '9'
  {
    var digit := ["0123456789"[n % 10]];
    if n < 10 then digit else DecimalString(n / 10) + digit
  }

  lemma {:induction false} DecimalValue(n: nat)
    ensures forall k :: 0 <= k < |DecimalString(n)| ==> DigitValue(DecimalString(n)[k], Radix(false)).Some?
    ensures DigitsValue(DecimalString(n), false) == n
  {
    var s := DecimalString(n);
    var last := "0123456789"[n % 10];
    DecimalDigit(n % 10);
    if n >= 10 {
      var high := DecimalString(n / 10);
      DecimalValue(n / 10);
      assert s == high + [last];
      assert s[..|s| - 1] == high;
    }
  }

  /** The character `DecimalString` writes for a digit reads back as that digit. */
  lemma DecimalDigit(d: nat)
    requires d < 10
    ensures DigitValue("0123456789"[d], Radix(false)) == Some(d)
  {
  }

  lemma DigitRunAll(s: string, radix: nat)
    requires forall k :: 0 <= k < |s| ==> DigitValue(s[k], radix).Some?
    ensures DigitRun(s, radix) == |s|
  {
  }

  /** A string of decimal digits is read without white space, sign or radix prefix. */
  lemma ParseIntFromDigits(s: string)
    requires |s| > 0 && forall k :: 0 <= k < |s| ==> '0' <= s[k] <= '9'
    ensures ParseUnsigned(s).Some?
    ensures ParseInt(s) == Some(ParseUnsigned(s).value)
  {
    assert !IsJsWhiteSpace(s[0]);
    assert TrimStart(s) == s;
    assert s[0] != '-' && s[0] != '+';
    assert DigitValue(s[0], Radix(false)).Some?;
    assert DigitRun(s, Radix(false)) > 0;
    assert ParseUnsigned(s).Some?;
  }

  /** A `Content-Length` written in decimal reads back as its value. */
  lemma ParseDecimal(n: nat)
    ensures ParseInt(DecimalString(n)) == Some(n)
  {
    var s := DecimalString(n);
    DecimalValue(n);
    assert !(|s| >= 2 && s[0] == '0' && (s[1] == 'x' || s[1] == 'X'));
    DigitRunAll(s, Radix(false));
    assert s[..|s|] == s;
    assert ParseUnsigned(s) == Some(n);
    ParseIntFromDigits(s);
  }

  // ---------------------------------------------------------------------------
  // validateVideoUrl

  const LargeContent := 1000000

  /** `headers['content-type']?.toLowerCase() || ''`. */
  function ContentType(r: Response): (t: string)
    ensures r.contentType.None? ==> t == ""
  {
    match r.contentType case Some(v) => ToLower(v) case None => ""
  }

  /** `parseInt(headers['content-length'] || '0')`; `None` is `NaN`. */
  function ContentLength(r: Response): Option<int>
  {
    var raw := if Truthy(r.contentLength) then r.contentLength.value else "0";
    ParseInt(raw)
  }

  /** The HEAD response looks like video: a video or binary content type, a playlist content
      type, `text/plain` on an m3u8 url, or more than a megabyte. */
  predicate HeadAccepts(r: Response, url: string)
  {
    var contentType := ContentType(r);
    var contentLength := ContentLength(r);
    Contains(contentType, "video/")
    || Contains(contentType, "application/octet-stream")
    || Contains(contentType, "binary/octet-stream")
    || Contains(contentType, "application/vnd.apple.mpegurl")
    || Contains(contentType, "application/x-mpegurl")
    || (Contains(contentType, "text/plain") && Contains(url, "m3u8"))
    || (contentLength.Some? && contentLength.value > LargeContent)
  }

  /** The ranged GET response looks like video: only a video or octet-stream content type counts. */
  predicate GetAccepts(r: Response)
  {
    var contentType := ContentType(r);
    Contains(contentType, "video/") || Contains(contentType, "application/octet-stream")
  }

  function HeadRequest(url: string, referer: Option<string>): Request
  {
    Request(Head, url, RequestHeaders(referer))
  }

  function RangeRequest(url: string, referer: Option<string>): Request
  {
    Request(Get, url, RequestHeaders(referer) + [("Range", "bytes=0-1023")])
  }

  /** The fallback answers true when the ranged GET answers and is accepted. */
  predicate RangeLooksLikeVideo(url: string, referer: Option<string>, http: HttpClient)
  {
    match http(RangeRequest(url, referer))
    case None => false
    case Some(get) => GetAccepts(get)
  }

  /** Whether `validateVideoUrl` answers true: the HEAD response is accepted, or it failed with
      a status of 400 or more and the ranged GET is accepted. A request that throws means false. */
  predicate LooksLikeVideo(url: string, referer: Option<string>, http: HttpClient)
  {
    match http(HeadRequest(url, referer))
    case None => false
    case Some(head) => HeadAccepts(head, url) || (head.status >= 400 && RangeLooksLikeVideo(url, referer, http))
  }

  /** The requests `validateVideoUrl` sends: the HEAD, then the ranged GET only when the HEAD
      answered, was not accepted on its own and had a status of 400 or more. */
  function ValidationRequests(url: string, referer: Option<string>, http: HttpClient): seq<Request>
  {
    match http(HeadRequest(url, referer))
    case Some(head) =>
      if !HeadAccepts(head, url) && head.status >= 400 then [HeadRequest(url, referer), RangeRequest(url, referer)]
      else [HeadRequest(url, referer)]
    case None => [HeadRequest(url, referer)]
  }

  method ValidateVideoUrl(url: string, referer: Option<string>, http: HttpClient)
    returns (valid: bool, sent: seq<Request>)
    ensures valid == LooksLikeVideo(url, referer, http)
    ensures sent == ValidationRequests(url, referer, http)
  {
    sent := [HeadRequest(url, referer)];
    var response := http(HeadRequest(url, referer));
    match response
    case None =>
      valid := false;
    case Some(head) =>
      var accepted := HeadAccepts(head, url);
      if accepted {
        valid := true;
      } else if head.status >= 400 {
        sent := sent + [RangeRequest(url, referer)];
        valid := RangeCheck(url, referer, http);
      } else {
        valid := false;
      }
  }

  /** The ranged GET of `validateVideoUrl`, sent after a failed HEAD. */
  method RangeCheck(url: string, referer: Option<string>, http: HttpClient) returns (valid: bool)
    ensures valid == RangeLooksLikeVideo(url, referer, http)
  {
    var getResponse := http(RangeRequest(url, referer));
    if getResponse.None? {
      return false;
    }
    if GetAccepts(getResponse.value) {
      return true;
    }
    // An HTML body is reported as such; the answer is false either way.
    valid := false;
  }

  /** A range GET is sent only after a HEAD status of 400 or more, and the answer is never true
      for a HEAD that was neither accepted nor failed. */
  lemma GetOnlyAfterFailedHead(url: string, referer: Option<string>, http: HttpClient)
    ensures |ValidationRequests(url, referer, http)| == 2 ==>
      http(HeadRequest(url, referer)).Some? && http(HeadRequest(url, referer)).value.status >= 400
    ensures forall head :: http(HeadRequest(url, referer)) == Some(head) && head.status < 400 ==>
      (LooksLikeVideo(url, referer, http) <==> HeadAccepts(head, url))
  {
  }

  lemma HtmlLowered()
    ensures ToLower("TEXT/HTML") == "text/html"
  {
    var t := ToLower("TEXT/HTML");
    assert t[0] == 't' && t[1] == 'e' && t[2] == 'x' && t[3] == 't' && t[4] == '/';
    assert t[5] == 'h' && t[6] == 't' && t[7] == 'm' && t[8] == 'l';
  }

  lemma DecimalOf5120()
    ensures DecimalString(5120) == "5120"
  {
    assert DecimalString(5) == "5";
    assert DecimalString(51) == "51";
    assert DecimalString(512) == "512";
  }

  lemma HtmlIsNoVideoType()
    ensures !Contains("text/html", "video/")
    ensures !Contains("text/html", "application/octet-stream")
    ensures !Contains("text/html", "binary/octet-stream")
    ensures !Contains("text/html", "application/vnd.apple.mpegurl")
    ensures !Contains("text/html", "application/x-mpegurl")
    ensures !Contains("text/html", "text/plain")
  {
    var t := "text/html";
    assert forall k :: 0 <= k < |t| ==> t[k] != 'v';
    AbsentHeadChar(t, "video/");
    LongerAbsent(t, "application/octet-stream");
    LongerAbsent(t, "binary/octet-stream");
    LongerAbsent(t, "application/vnd.apple.mpegurl");
    LongerAbsent(t, "application/x-mpegurl");
    LongerAbsent(t, "text/plain");
  }

  /** A small HTML page answering 200 is not taken for video, and no GET follows. */
  lemma HtmlPageRejected(url: string, http: HttpClient, referer: Option<string>)
    requires http(HeadRequest(url, referer)) == Some(Response(200, Some("TEXT/HTML"), Some("5120"), "<html>"))
    ensures !LooksLikeVideo(url, referer, http)
    ensures ValidationRequests(url, referer, http) == [HeadRequest(url, referer)]
  {
    var head := Response(200, Some("TEXT/HTML"), Some("5120"), "<html>");
    HtmlResponseRejected(head, url);
    RejectedHeadEndsValidation(url, referer, http, head);
  }

  /** A HEAD answer below 400 that is not accepted ends the validation: false, after one request. */
  lemma RejectedHeadEndsValidation(url: string, referer: Option<string>, http: HttpClient, head: Response)
    requires http(HeadRequest(url, referer)) == Some(head) && head.status < 400 && !HeadAccepts(head, url)
    ensures !LooksLikeVideo(url, referer, http)
    ensures ValidationRequests(url, referer, http) == [HeadRequest(url, referer)]
  {
  }

  lemma HtmlResponseRejected(r: Response, url: string)
    requires r == Response(200, Some("TEXT/HTML"), Some("5120"), "<html>")
    ensures !HeadAccepts(r, url)
  {
    HtmlContentType(r);
    HtmlContentLength(r);
    HtmlIsNoVideoType();
  }

  lemma HtmlContentType(r: Response)
    requires r.contentType == Some("TEXT/HTML")
    ensures ContentType(r) == "text/html"
  {
    HtmlLowered();
  }

  lemma HtmlContentLength(r: Response)
    requires r.contentLength == Some("5120")
    ensures ContentLength(r) == Some(5120)
  {
    DecimalOf5120();
    ParseDecimal(5120);
  }

  /** Missing headers count as an empty content type and a length of 0: nothing is accepted on
      them alone. */
  lemma MissingHeadersRejected(r: Response, url: string)
    requires r.contentType.None? && r.contentLength.None?
    ensures !HeadAccepts(r, url)
  {
    MissingContentLength(r);
    assert !Contains("", "video/");
    assert !Contains("", "application/octet-stream");
    assert !Contains("", "binary/octet-stream");
    assert !Contains("", "application/vnd.apple.mpegurl");
    assert !Contains("", "application/x-mpegurl");
    assert !Contains("", "text/plain");
  }

  /** A missing `Content-Length` reads as `'0'`, that is 0. */
  lemma MissingContentLength(r: Response)
    requires r.contentLength.None?
    ensures ContentLength(r) == Some(0)
  {
    assert !Truthy(r.contentLength);
    ZeroParses();
  }

  lemma ZeroParses()
    ensures ParseInt("0") == Some(0)
  {
    var z := "0";
    assert !IsJsWhiteSpace(z[0]);
    assert TrimStart(z) == z;
    assert z[1..] == "";
    assert DigitValue(z[0], Radix(false)) == Some(0);
    assert DigitRun(z, Radix(false)) == 1;
    assert z[..1] == z;
    assert DigitsValue(z, false) == 0;
    assert ParseUnsigned(z) == Some(0);
  }

  // ---------------------------------------------------------------------------
  // Argument vectors

  /** `args.splice(i, 0, ...items)`: `items` inserted before position `i`. */
  function InsertAt(s: seq<string>, i: nat, items: seq<string>): (r: seq<string>)
    requires i <= |s|
    ensures |r| == |s| + |items|
    ensures r[..i] == s[..i] && r[i..i + |items|] == items && r[i + |items|..] == s[i..]
  {
    s[..i] + items + s[i..]
  }

  /** The fixed ffmpeg arguments: copy the input stream to the output file. */
  function FFmpegBaseArgs(url: string, outputPath: string): seq<string>
  {
    ["-extension_picky", "0", "-loglevel", "error", "-stats", "-i", url, "-c", "copy", outputPath]
  }

  function YtDlpOptions(outputPath: string): seq<string>
  {
    ["--downloader", "ffmpeg", "--no-skip-unavailable-fragments", "--fragment-retries", "infinite",
     "-N", "16", "-o", outputPath]
  }

  function Aria2cOptions(dir: string, filename: string): seq<string>
  {
    ["--enable-rpc=false", "--check-certificate=false", "--continue", "--summary-interval=0",
     "-x", "16", "-s", "16", "--dir", dir, "-o", filename, "--download-result=hide"]
  }

  function WgetOptions(outputPath: string): seq<string>
  {
    ["--continue", "--timeout=30", "--tries=3", "--output-document", outputPath]
  }

  function CurlOptions(outputPath: string): seq<string>
  {
    ["--location", "--continue-at", "-", "--output", outputPath]
  }

  /** The yt-dlp, aria2c, wget and curl layout: the fixed options, then `--referer <ref>` exactly
      when the referer is truthy, then the url as the last argument. */
  predicate OptionsRefererUrl(args: seq<string>, options: seq<string>, referer: Option<string>, url: string)
  {
    var extra := if Truthy(referer) then 2 else 0;
    && |args| == |options| + extra + 1
    && args[..|options|] == options
    && (Truthy(referer) ==> args[|options|] == "--referer" && args[|options| + 1] == referer.value)
    && args[|args| - 1] == url
  }

  /** The ffmpeg layout: without a referer exactly the ten fixed arguments; with one,
      `-referer <ref>` right after `-extension_picky 0`; the output path always last. */
  predicate FFmpegLayout(args: seq<string>, url: string, outputPath: string, referer: Option<string>)
  {
    var base := FFmpegBaseArgs(url, outputPath);
    && (!Truthy(referer) ==> args == base)
    && (Truthy(referer) ==>
          |args| == 12 && args[..2] == base[..2]
          && args[2] == "-referer" && args[3] == referer.value && args[4..] == base[2..])
    && args[|args| - 1] == outputPath
  }

  /** The push steps shared by every builder but ffmpeg. */
  method PushRefererAndUrl(options: seq<string>, referer: Option<string>, url: string) returns (args: seq<string>)
    ensures OptionsRefererUrl(args, options, referer, url)
  {
    args := options;
    if Truthy(referer) {
      args := args + ["--referer", referer.value];
    }
    args := args + [url];
  }

  method RunYtDlpWithFFmpeg(url: string, outputPath: string, referer: Option<string>) returns (command: Command)
    ensures command.program == "yt-dlp"
    ensures OptionsRefererUrl(command.args, YtDlpOptions(outputPath), referer, url)
  {
    var args := PushRefererAndUrl(YtDlpOptions(outputPath), referer, url);
    command := Command("yt-dlp", args);
  }

  method RunFFmpeg(url: string, outputPath: string, referer: Option<string>) returns (command: Command)
    ensures command.program == "ffmpeg"
    ensures FFmpegLayout(command.args, url, outputPath, referer)
  {
    var args := FFmpegBaseArgs(url, outputPath);
    if Truthy(referer) {
      args := InsertAt(args, 2, ["-referer", referer.value]);
    }
    command := Command("ffmpeg", args);
  }

  /** aria2c gets the directory and the file name of the output path separately. */
  method RunAria2c(url: string, outputPath: string, referer: Option<string>, paths: PathOps) returns (command: Command)
    ensures command.program == "aria2c"
    ensures OptionsRefererUrl(command.args, Aria2cOptions(paths.dirName(outputPath), paths.baseName(outputPath)), referer, url)
  {
    var dir := paths.dirName(outputPath);
    var filename := paths.baseName(outputPath);
    var args := PushRefererAndUrl(Aria2cOptions(dir, filename), referer, url);
    command := Command("aria2c", args);
  }

  method RunWget(url: string, outputPath: string, referer: Option<string>) returns (command: Command)
    ensures command.program == "wget"
    ensures OptionsRefererUrl(command.args, WgetOptions(outputPath), referer, url)
  {
    var args := PushRefererAndUrl(WgetOptions(outputPath), referer, url);
    command := Command("wget", args);
  }

  method RunCurl(url: string, outputPath: string, referer: Option<string>) returns (command: Command)
    ensures command.program == "curl"
    ensures OptionsRefererUrl(command.args, CurlOptions(outputPath), referer, url)
  {
    var args := PushRefererAndUrl(CurlOptions(outputPath), referer, url);
    command := Command("curl", args);
  }

  /** Without a referer the ffmpeg command has ten arguments; a referer adds two and keeps the
      input url right after `-i`. */
  lemma FFmpegArgCount(args: seq<string>, url: string, outputPath: string, referer: Option<string>)
    requires FFmpegLayout(args, url, outputPath, referer)
    ensures |args| == (if Truthy(referer) then 12 else 10)
    ensures var i := if Truthy(referer) then 7 else 5; args[i] == "-i" && args[i + 1] == url
  {
    if Truthy(referer) {
      assert args[7] == args[4..][3];
      assert args[8] == args[4..][4];
    }
  }

  // ---------------------------------------------------------------------------
  // Dispatch

  /** `url.includes('example.com/')`: a placeholder that is reported and not downloaded. */
  predicate IsPlaceholder(url: string)
  {
    Contains(url, "example.com/")
  }

  predicate IsM3u8(url: string)
  {
    Contains(url, "m3u8")
  }

  /** The referer handed on: `referer || m3u8Referer` for a playlist, `referer` otherwise. */
  function DownloadReferer(options: DownloadOptions): (r: Option<string>)
    ensures !IsM3u8(options.url) ==> r == options.referer
    ensures IsM3u8(options.url) && Truthy(options.referer) ==> r == options.referer
    ensures IsM3u8(options.url) && !Truthy(options.referer) ==> r == options.m3u8Referer
  {
    if IsM3u8(options.url) then OrElse(options.referer, options.m3u8Referer) else options.referer
  }

  /** The tool `downloadM3U8` or `downloadDirect` picks; `None` when no direct tool is installed;
      an error when a playlist has neither ffmpeg nor an enabled yt-dlp. */
  function ChooseTool(m3u8: bool, config: DownloadConfig, installed: Installed): (r: Result<Option<Tool>, DownloadError>)
    ensures r.Failure? ==> m3u8
    ensures r.Success? && r.value.Some? ==> (m3u8 <==> r.value.value == FFmpeg || r.value.value == YtDlp)
    ensures r.Success? && r.value.None? ==> !m3u8
  {
    if m3u8 then
      if installed.ffmpeg then Success(Some(FFmpeg))
      else if config.useYtDlp && installed.ytDlp then Success(Some(YtDlp))
      else Failure(FfmpegRequired)
    else
      if config.useAria2c && installed.aria2c then Success(Some(Aria2c))
      else if installed.wget then Success(Some(Wget))
      else if installed.curl then Success(Some(Curl))
      else Success(None)
  }

  /** Tool preference: playlists go to ffmpeg or yt-dlp, never to a direct tool, and fail only
      without both; direct urls go to aria2c only when enabled, and to wget before curl. */
  lemma ToolPreference(m3u8: bool, config: DownloadConfig, installed: Installed)
    ensures m3u8 ==> (ChooseTool(m3u8, config, installed) == Success(Some(FFmpeg)) <==> installed.ffmpeg)
    ensures m3u8 ==> (ChooseTool(m3u8, config, installed) == Success(Some(YtDlp))
      <==> !installed.ffmpeg && config.useYtDlp && installed.ytDlp)
    ensures ChooseTool(m3u8, config, installed).Failure? <==>
      m3u8 && !installed.ffmpeg && !(config.useYtDlp && installed.ytDlp)
    ensures !m3u8 ==> (ChooseTool(m3u8, config, installed) == Success(Some(Aria2c))
      <==> config.useAria2c && installed.aria2c)
    ensures !m3u8 ==> (ChooseTool(m3u8, config, installed) == Success(Some(Wget))
      <==> !(config.useAria2c && installed.aria2c) && installed.wget)
    ensures !m3u8 ==> (ChooseTool(m3u8, config, installed) == Success(Some(Curl))
      <==> !(config.useAria2c && installed.aria2c) && !installed.wget && installed.curl)
    ensures ChooseTool(m3u8, config, installed) == Success(None) <==>
      !m3u8 && !(config.useAria2c && installed.aria2c) && !installed.wget && !installed.curl
  {
  }

  function Program(tool: Tool): string
  {
    match tool
    case FFmpeg => "ffmpeg"
    case YtDlp => "yt-dlp"
    case Aria2c => "aria2c"
    case Wget => "wget"
    case Curl => "curl"
  }

  /** What each builder promises about the command it returns. */
  predicate Invokes(command: Command, tool: Tool, url: string, outputPath: string, referer: Option<string>, paths: PathOps)
  {
    && command.program == Program(tool)
    && match tool
       case FFmpeg => FFmpegLayout(command.args, url, outputPath, referer)
       case YtDlp => OptionsRefererUrl(command.args, YtDlpOptions(outputPath), referer, url)
       case Aria2c =>
         OptionsRefererUrl(command.args, Aria2cOptions(paths.dirName(outputPath), paths.baseName(outputPath)), referer, url)
       case Wget => OptionsRefererUrl(command.args, WgetOptions(outputPath), referer, url)
       case Curl => OptionsRefererUrl(command.args, CurlOptions(outputPath), referer, url)
  }

  function Sends(requests: seq<Request>): (effects: seq<Effect>)
    ensures |effects| == |requests| && forall k :: 0 <= k < |requests| ==> effects[k] == Send(requests[k])
  {
    if |requests| == 0 then [] else [Send(requests[0])] + Sends(requests[1..])
  }

  /** What happens for a valid url before a tool is chosen: the download directory, and the
      subtitle fetch when a subtitle url is given. */
  function Setup(options: DownloadOptions, paths: PathOps): seq<Effect>
  {
    [MakeDirectory(options.downloadDir)]
      + (if Truthy(options.subtitle)
         then [FetchSubtitle(options.subtitle.value, paths.join(options.downloadDir, options.filename + ".vtt"))]
         else [])
  }

  /** The outcome for a valid url: the set-up effects, then the spawn of the chosen tool on
      `<downloadDir>/<filename>.mp4` with the referer of its path, or the playlist error, or
      nothing when no direct tool is installed. */
  predicate Proceeds(r: Result<(), DownloadError>, effects: seq<Effect>, options: DownloadOptions,
                     config: DownloadConfig, installed: Installed, paths: PathOps)
  {
    var setup := Setup(options, paths);
    var choice := ChooseTool(IsM3u8(options.url), config, installed);
    && |effects| >= |setup| && effects[..|setup|] == setup
    && (choice.Failure? ==> r == Failure(choice.error) && effects == setup)
    && (choice == Success(None) ==> r.Success? && effects == setup)
    && (choice.Success? && choice.value.Some? ==>
          r.Success? && |effects| == |setup| + 1 && effects[|setup|].Spawn?
          && Invokes(effects[|setup|].command, choice.value.value, options.url,
                     paths.join(options.downloadDir, options.filename + ".mp4"),
                     DownloadReferer(options), paths))
  }

  /** `download(options)`: placeholders are reported and skipped; a url that does not look like
      video is reported after validation and skipped; otherwise the download proceeds. Spawned
      tools are taken to succeed, and a failed subtitle fetch is only logged. */
  method Download(options: DownloadOptions, config: DownloadConfig, installed: Installed,
                  http: HttpClient, paths: PathOps)
    returns (r: Result<(), DownloadError>, effects: seq<Effect>)
    ensures IsPlaceholder(options.url) ==> r.Success? && effects == []
    ensures !IsPlaceholder(options.url) && !LooksLikeVideo(options.url, options.referer, http) ==>
      r.Success? && effects == Sends(ValidationRequests(options.url, options.referer, http))
    ensures !IsPlaceholder(options.url) && LooksLikeVideo(options.url, options.referer, http) ==>
      var checks := Sends(ValidationRequests(options.url, options.referer, http));
      |effects| >= |checks| && effects[..|checks|] == checks
      && Proceeds(r, effects[|checks|..], options, config, installed, paths)
  {
    effects := [];
    if IsPlaceholder(options.url) {
      return Success(()), effects;
    }
    var isValidVideo, sent := ValidateVideoUrl(options.url, options.referer, http);
    effects := Sends(sent);
    if !isValidVideo {
      return Success(()), effects;
    }
    var rest;
    r, rest := Proceed(options, config, installed, paths);
    effects := effects + rest;
    assert effects[..|sent|] == Sends(sent) && effects[|sent|..] == rest;
  }

  /** The part of `download` after validation. */
  method Proceed(options: DownloadOptions, config: DownloadConfig, installed: Installed, paths: PathOps)
    returns (r: Result<(), DownloadError>, effects: seq<Effect>)
    ensures Proceeds(r, effects, options, config, installed, paths)
  {
    effects := Prepare(options, paths);
    var started := StartDownload(options, config, installed, paths);
    if started.Failure? {
      return Failure(started.error), effects;
    }
    if started.value.Some? {
      effects := effects + [Spawn(started.value.value)];
    }
    r := Success(());
  }

  /** The download directory, then the subtitle fetch when a subtitle url is given. */
  method Prepare(options: DownloadOptions, paths: PathOps) returns (effects: seq<Effect>)
    ensures effects == Setup(options, paths)
  {
    effects := [MakeDirectory(options.downloadDir)];
    if Truthy(options.subtitle) {
      effects := effects + [FetchSubtitle(options.subtitle.value, paths.join(options.downloadDir, options.filename + ".vtt"))];
    }
  }

  /** `downloadM3U8` for a playlist url, `downloadDirect` otherwise, on the referer of that path. */
  method StartDownload(options: DownloadOptions, config: DownloadConfig, installed: Installed, paths: PathOps)
    returns (started: Result<Option<Command>, DownloadError>)
    ensures Started(started, ChooseTool(IsM3u8(options.url), config, installed), options.url,
                    paths.join(options.downloadDir, options.filename + ".mp4"), DownloadReferer(options), paths)
  {
    if IsM3u8(options.url) {
      started := DownloadM3u8(options.url, options.filename, options.downloadDir, DownloadReferer(options), config, installed, paths);
    } else {
      started := DownloadDirect(options.url, options.filename, options.downloadDir, DownloadReferer(options), config, installed, paths);
    }
  }

  /** The command the chosen tool is started with, as the builders promise it. */
  predicate Started(started: Result<Option<Command>, DownloadError>, choice: Result<Option<Tool>, DownloadError>,
                    url: string, outputPath: string, referer: Option<string>, paths: PathOps)
  {
    match choice
    case Failure(e) => started == Failure(e)
    case Success(None) => started == Success(None)
    case Success(Some(tool)) =>
      started.Success? && started.value.Some? && Invokes(started.value.value, tool, url, outputPath, referer, paths)
  }

  /** `downloadM3U8`: ffmpeg when installed, else yt-dlp when enabled and installed, else an error. */
  method DownloadM3u8(url: string, filename: string, downloadDir: string, referer: Option<string>,
                      config: DownloadConfig, installed: Installed, paths: PathOps)
    returns (started: Result<Option<Command>, DownloadError>)
    ensures Started(started, ChooseTool(true, config, installed), url, paths.join(downloadDir, filename + ".mp4"), referer, paths)
  {
    var outputPath := paths.join(downloadDir, filename + ".mp4");
    if installed.ffmpeg {
      var command := RunFFmpeg(url, outputPath, referer);
      started := Success(Some(command));
    } else if config.useYtDlp && installed.ytDlp {
      var command := RunYtDlpWithFFmpeg(url, outputPath, referer);
      started := Success(Some(command));
    } else {
      started := Failure(FfmpegRequired);
    }
  }

  /** `downloadDirect`: aria2c when enabled and installed, else wget, else curl, else nothing
      (the command it would run is only reported). */
  method DownloadDirect(url: string, filename: string, downloadDir: string, referer: Option<string>,
                        config: DownloadConfig, installed: Installed, paths: PathOps)
    returns (started: Result<Option<Command>, DownloadError>)
    ensures Started(started, ChooseTool(false, config, installed), url, paths.join(downloadDir, filename + ".mp4"), referer, paths)
  {
    var outputPath := paths.join(downloadDir, filename + ".mp4");
    if config.useAria2c && installed.aria2c {
      var command := RunAria2c(url, outputPath, referer, paths);
      started := Success(Some(command));
    } else if installed.wget {
      var command := RunWget(url, outputPath, referer);
      started := Success(Some(command));
    } else if installed.curl {
      var command := RunCurl(url, outputPath, referer);
      started := Success(Some(command));
    } else {
      started := Success(None);
    }
  }
}
