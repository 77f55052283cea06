/**
 * What the downloaders (the `services/downloaders` package) have in common:
 * the quality entries they offer, the yt-dlp options they build, the
 * output-file probe that runs after a download, and the unanchored URL
 * patterns their `detect` methods search for.
 *
 * yt-dlp's download and the filesystem are parameters: `run(opts, url)` is
 * false when `ydl.download([url])` raises, and `isFile` is `os.path.exists`
 * after the download.
 */
module Media {
  import opened Wrappers
  import PyStr

  /** A quality option: its button label (`label`), the `height` value sent back in the callback, and a size in bytes. */
  datatype Quality = Quality(text: string, height: string, filesize: int)

  /** The pair every social adapter offers, with no backend call. */
  const FixedQualities := [Quality("Video", "best", 0), Quality("Audio", "audio", 0)]

  /** One entry of yt-dlp's `formats` list; a missing or null key is `None`. */
  datatype Format = Format(
    height: Option<int>, vcodec: Option<string>, acodec: Option<string>,
    filesize: Option<int>, filesizeApprox: Option<int>)

  /** What `extract_info(url, download=False)` reports, key by key; a missing key is `None`. */
  datatype RawInfo = RawInfo(
    title: Option<string>, channel: Option<string>, uploader: Option<string>, thumbnail: Option<string>,
    duration: Option<int>, formats: Option<seq<Format>>, id: Option<string>)

  /** The dictionary `get_info` returns, with every default filled in. */
  datatype MediaInfo = MediaInfo(
    title: string, channel: string, thumbnail: string, duration: int, formats: seq<Format>, url: string, id: string)

  /**
   * The `get_info` of the social adapters: one yt-dlp probe (`None` when it
   * raises), then `info.get(key, default)` for title, uploader and id, and
   * no formats.
   */
  function SocialInfo(url: string, raw: Option<RawInfo>, titleDefault: string, channelDefault: string,
                      idDefault: string): (r: Option<MediaInfo>)
    ensures r.Some? <==> raw.Some?
    ensures r.Some? ==> r.value.title == raw.value.title.GetOr(titleDefault) &&
                        r.value.channel == raw.value.uploader.GetOr(channelDefault) &&
                        r.value.id == raw.value.id.GetOr(idDefault) &&
                        r.value.url == url && r.value.formats == [] &&
                        r.value.thumbnail == raw.value.thumbnail.GetOr("") &&
                        r.value.duration == raw.value.duration.GetOr(0)
  {
    if raw.None? then None
    else
      var info := raw.value;
      Some(MediaInfo(info.title.GetOr(titleDefault), info.uploader.GetOr(channelDefault), info.thumbnail.GetOr(""),
                     info.duration.GetOr(0), [], url, info.id.GetOr(idDefault)))
  }

  /** The `FFmpegExtractAudio` post-processor: codec and bitrate. */
  datatype AudioExtraction = AudioExtraction(codec: string, bitrate: string)

  /**
   * The yt-dlp options of a download. `withBase` says whether the shared
   * base options (services/downloaders/ytdl_utils.py: quiet, no playlist,
   * the ffmpeg location, a browser User-Agent, a 30 s socket timeout and 3
   * retries) are spread in; the Likee adapter leaves them out.
   */
  datatype DownloadOptions = DownloadOptions(
    format: string, outtmpl: string, mergeOutputFormat: Option<string>, extractAudio: Option<AudioExtraction>,
    withBase: bool)

  const VideoSuffix := ".mp4"
  const AudioSuffix := ".mp3"
  const VideoExtensions := ["mp4", "webm", "mkv"]
  const AudioExtensions := ["mp3", "m4a", "ogg"]
  const ExtTemplate := ".%(ext)s"
  const BestMp4 := "best[ext=mp4]/best"
  const BestAudio := "bestaudio/best"
  const Mp3At192 := AudioExtraction("mp3", "192")

  /** The audio download options: best audio, converted to 192 kbit/s mp3, every `.mp3` of the path templated. */
  function AudioOptions(outputPath: string, withBase: bool): (o: DownloadOptions)
    ensures o.format == BestAudio && o.extractAudio == Some(Mp3At192) && o.mergeOutputFormat.None?
    ensures o.outtmpl == OutputTemplate(outputPath, AudioSuffix) && o.withBase == withBase
  {
    DownloadOptions(BestAudio, OutputTemplate(outputPath, AudioSuffix), None, Some(Mp3At192), withBase)
  }

  /** The template `output_path.replace(suffix, ".%(ext)s")`. */
  function OutputTemplate(outputPath: string, suffix: string): string
    requires |suffix| > 0
  {
    PyStr.ReplaceAll(outputPath, suffix, ExtTemplate)
  }

  /** `output_path.replace(suffix, "." + ext)`. */
  function AltPath(outputPath: string, suffix: string, ext: string): string
    requires |suffix| > 0
  {
    PyStr.ReplaceAll(outputPath, suffix, "." + ext)
  }

  /** The first substitute path that exists, trying the extensions in order; `None` when none does. */
  function FirstExisting(outputPath: string, suffix: string, exts: seq<string>, isFile: string -> bool): (r: Option<string>)
    requires |suffix| > 0
    ensures r.Some? ==> exists k :: 0 <= k < |exts| && r.value == AltPath(outputPath, suffix, exts[k]) &&
                          isFile(r.value) && forall j :: 0 <= j < k ==> !isFile(AltPath(outputPath, suffix, exts[j]))
    ensures r.None? ==> forall k :: 0 <= k < |exts| ==> !isFile(AltPath(outputPath, suffix, exts[k]))
  {
    if exts == [] then None
    else
      var alt := AltPath(outputPath, suffix, exts[0]);
      if isFile(alt) then Some(alt)
      else
        var r := FirstExisting(outputPath, suffix, exts[1..], isFile);
        assert forall k :: 1 <= k < |exts| ==> exts[k] == exts[1..][k - 1];
        r
  }

  /** The first probe is the output path itself: replacing the suffix by itself changes nothing. */
  lemma FirstProbeIsOutputPath(outputPath: string, suffix: string, exts: seq<string>)
    requires |suffix| > 0 && exts != [] && suffix == "." + exts[0]
    ensures AltPath(outputPath, suffix, exts[0]) == outputPath
  {
    PyStr.ReplaceAllSelf(outputPath, suffix);
  }

  /** A path without the suffix is used as the template unchanged, and every probe is that same path. */
  lemma NoSuffixNoSubstitution(outputPath: string, suffix: string, ext: string)
    requires |suffix| > 0 && !PyStr.Contains(outputPath, suffix)
    ensures OutputTemplate(outputPath, suffix) == outputPath && AltPath(outputPath, suffix, ext) == outputPath
  {
    PyStr.ReplaceAllAbsent(outputPath, suffix, ExtTemplate);
    PyStr.ReplaceAllAbsent(outputPath, suffix, "." + ext);
  }

  /** A download: `None` when yt-dlp raises, otherwise the probe's answer. */
  function Downloaded(opts: DownloadOptions, url: string, run: (DownloadOptions, string) -> bool,
                      outputPath: string, suffix: string, exts: seq<string>, isFile: string -> bool): (r: Option<string>)
    requires |suffix| > 0
    ensures !run(opts, url) ==> r.None?
    ensures run(opts, url) ==> r == FirstExisting(outputPath, suffix, exts, isFile)
  {
    if run(opts, url) then FirstExisting(outputPath, suffix, exts, isFile) else None
  }

  /** The probe loop, proved to compute `FirstExisting`. */
  method ProbeExtensions(outputPath: string, suffix: string, exts: seq<string>, isFile: string -> bool)
    returns (r: Option<string>)
    requires |suffix| > 0
    ensures r == FirstExisting(outputPath, suffix, exts, isFile)
  {
    var i := 0;
    while i < |exts|
      invariant 0 <= i <= |exts|
      invariant FirstExisting(outputPath, suffix, exts[i..], isFile) == FirstExisting(outputPath, suffix, exts, isFile)
    {
      var altPath := AltPath(outputPath, suffix, exts[i]);
      assert exts[i..][0] == exts[i] && exts[i..][1..] == exts[i + 1..];
      if isFile(altPath) {
        return Some(altPath);
      }
      i := i + 1;
    }
    return None;
  }

  // ---- the social adapters' downloads ----

  /** The social video options: `best[ext=mp4]/best`, no merge format, every `.mp4` of the path templated. */
  function SocialVideoOptions(outputPath: string, withBase: bool): (o: DownloadOptions)
    ensures o.format == BestMp4 && o.mergeOutputFormat.None? && o.extractAudio.None?
    ensures o.outtmpl == OutputTemplate(outputPath, VideoSuffix) && o.withBase == withBase
  {
    DownloadOptions(BestMp4, OutputTemplate(outputPath, VideoSuffix), None, None, withBase)
  }

  /**
   * `download_video` of the TikTok and Likee adapters: the requested quality
   * plays no part; `None` when yt-dlp raises or no substitute exists,
   * otherwise the first of `.mp4`, `.webm`, `.mkv` that exists.
   */
  function SocialDownloadVideo(url: string, outputPath: string, quality: Option<string>, withBase: bool,
                               run: (DownloadOptions, string) -> bool, isFile: string -> bool): (r: Option<string>)
    ensures r.Some? ==> run(SocialVideoOptions(outputPath, withBase), url) && isFile(r.value) &&
                        exists k :: 0 <= k < |VideoExtensions| && r.value == AltPath(outputPath, VideoSuffix, VideoExtensions[k])
    ensures r.None? <==> !run(SocialVideoOptions(outputPath, withBase), url) ||
                         forall k :: 0 <= k < |VideoExtensions| ==> !isFile(AltPath(outputPath, VideoSuffix, VideoExtensions[k]))
  {
    Downloaded(SocialVideoOptions(outputPath, withBase), url, run, outputPath, VideoSuffix, VideoExtensions, isFile)
  }

  /** `download_audio` of the TikTok and Likee adapters: the first of `.mp3`, `.m4a`, `.ogg` that exists after the download. */
  function SocialDownloadAudio(url: string, outputPath: string, withBase: bool,
                               run: (DownloadOptions, string) -> bool, isFile: string -> bool): (r: Option<string>)
    ensures r.Some? ==> run(AudioOptions(outputPath, withBase), url) && isFile(r.value) &&
                        exists k :: 0 <= k < |AudioExtensions| && r.value == AltPath(outputPath, AudioSuffix, AudioExtensions[k])
    ensures r.None? <==> !run(AudioOptions(outputPath, withBase), url) ||
                         forall k :: 0 <= k < |AudioExtensions| ==> !isFile(AltPath(outputPath, AudioSuffix, AudioExtensions[k]))
  {
    Downloaded(AudioOptions(outputPath, withBase), url, run, outputPath, AudioSuffix, AudioExtensions, isFile)
  }

  /** The social adapters ignore the requested quality. */
  lemma QualityIgnored(url: string, outputPath: string, q1: Option<string>, q2: Option<string>, withBase: bool,
                       run: (DownloadOptions, string) -> bool, isFile: string -> bool)
    ensures SocialDownloadVideo(url, outputPath, q1, withBase, run, isFile) == SocialDownloadVideo(url, outputPath, q2, withBase, run, isFile)
  {
  }

  // ---- URL patterns ----

  /** The ASCII reading of Python's `\w`: letters, digits and `_`. */
  predicate IsWordChar(c: char)
  {
    'a' <= c <= 'z' || 'A' <= c <= 'Z' || '0' <= c <= '9' || c == '_'
  }

  /** The character class after the literal: `[\w\-]`, `[\w\-@/.]` or `[\w\-/.]`. */
  datatype CharClass = IdChars | TikTokPathChars | LikeePathChars

  predicate InClass(k: CharClass, c: char)
  {
    IsWordChar(c) || c == '-' ||
    (k == TikTokPathChars && (c == '@' || c == '/' || c == '.')) ||
    (k == LikeePathChars && (c == '/' || c == '.'))
  }

  /**
   * A pattern `(https?://)?(H1|H2|...)?(L1|L2|...)C+`: the optional host
   * prefixes (with `""` for the absent group), the literal alternatives and
   * the class `C`.
   */
  datatype UrlPattern = UrlPattern(hosts: seq<string>, literals: seq<string>, cls: CharClass)

  /** The optional scheme group `(https?://)?`. */
  const Schemes := ["", "http://", "https://"]

  /** `lit` occurs at `i` and is followed by at least one character of class `k`. */
  predicate LiteralThenClass(s: string, lit: string, i: nat, k: CharClass)
  {
    PyStr.OccursAt(s, lit, i) && i + |lit| < |s| && InClass(k, s[i + |lit|])
  }

  /** The pattern matches a span of `s` starting at index `i` (one choice per group, then one class character). */
  predicate MatchesAt(p: UrlPattern, s: string, i: nat)
  {
    exists a, b, l | a in Schemes && b in p.hosts && l in p.literals :: LiteralThenClass(s, a + b + l, i, p.cls)
  }

  /** `bool(re.compile(pattern).search(s))`. */
  predicate Search(p: UrlPattern, s: string)
  {
    exists i: nat | i <= |s| :: MatchesAt(p, s, i)
  }

  /** Some literal of the pattern occurs in `s` immediately followed by a character of its class. */
  predicate LiteralFollowedByClass(p: UrlPattern, s: string)
  {
    exists l, i: nat | l in p.literals && i <= |s| :: LiteralThenClass(s, l, i, p.cls)
  }

  /** An occurrence of `a + b + l` at `i` contains an occurrence of `l` at `i + |a| + |b|`. */
  lemma SuffixOccurs(s: string, a: string, b: string, l: string, i: nat)
    requires PyStr.OccursAt(s, a + b + l, i)
    ensures PyStr.OccursAt(s, l, i + |a| + |b|)
  {
    var j := i + |a| + |b|;
    assert s[j..j + |l|] == s[i..i + |a + b + l|][|a| + |b|..];
    assert (a + b + l)[|a| + |b|..] == l;
  }

  /**
   * Because the scheme and host groups are optional and the search is
   * unanchored, the pattern is found exactly when one of its literals is
   * followed by a character of its class.
   */
  lemma SearchIffLiteral(p: UrlPattern, s: string)
    requires "" in p.hosts
    ensures Search(p, s) <==> LiteralFollowedByClass(p, s)
  {
    if Search(p, s) {
      var i: nat :| i <= |s| && MatchesAt(p, s, i);
      var a, b, l :| a in Schemes && b in p.hosts && l in p.literals && LiteralThenClass(s, a + b + l, i, p.cls);
      SuffixOccurs(s, a, b, l, i);
      assert |a + b + l| == |a| + |b| + |l|;
      assert LiteralThenClass(s, l, i + |a| + |b|, p.cls);
    }
    if LiteralFollowedByClass(p, s) {
      var l, i: nat :| l in p.literals && i <= |s| && LiteralThenClass(s, l, i, p.cls);
      assert "" + "" + l == l;
      assert "" in Schemes;
      assert MatchesAt(p, s, i);
    }
  }
}
