/**
 * The Likee adapter (services/downloaders/likee_service.py): URL detection
 * and the `get_info` defaults. Its quality list is `Media.FixedQualities`
 * and its downloads are `Media.SocialDownloadVideo` and
 * `Media.SocialDownloadAudio` with `UsesBaseOptions`.
 */
module LikeeService {
  import opened Wrappers
  import opened Media

  /**
   * This adapter builds its yt-dlp options by hand (quiet, no warnings, no
   * playlist) without the shared base options: no ffmpeg location, headers,
   * socket timeout or retries.
   */
  const UsesBaseOptions := false

  /** `(https?://)?(www\.|l\.)?(likee\.video|like\.video)/[\w\-/.]+`. */
  const Pattern := UrlPattern(["", "www.", "l."], ["likee.video/", "like.video/"], LikeePathChars)

  predicate Detect(url: string)
  {
    Search(Pattern, url)
  }

  /** `detect` holds exactly when `likee.video/` or `like.video/` is followed by a `[\w\-/.]` character. */
  lemma DetectIffLiteral(url: string)
    ensures Detect(url) <==>
              exists i: nat | i <= |url| ::
                LiteralThenClass(url, "likee.video/", i, LikeePathChars) || LiteralThenClass(url, "like.video/", i, LikeePathChars)
  {
    SearchIffLiteral(Pattern, url);
    if Detect(url) {
      var l, i: nat :| l in Pattern.literals && i <= |url| && LiteralThenClass(url, l, i, Pattern.cls);
      assert l == "likee.video/" || l == "like.video/";
    }
  }

  /** `get_info`: `None` when yt-dlp raises; otherwise title, uploader and id default to `Likee Video`, `Likee`, `likee`. */
  function GetInfo(url: string, extract: string -> Option<RawInfo>): (r: Option<MediaInfo>)
    ensures r.Some? <==> extract(url).Some?
    ensures r.Some? ==>
              var raw := extract(url).value;
              r.value.title == raw.title.GetOr("Likee Video") && r.value.channel == raw.uploader.GetOr("Likee") &&
              r.value.id == raw.id.GetOr("likee") && r.value.url == url && r.value.formats == []
  {
    SocialInfo(url, extract(url), "Likee Video", "Likee", "likee")
  }
}
