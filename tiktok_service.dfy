/**
 * The TikTok adapter (services/downloaders/tiktok_service.py): URL
 * detection and the `get_info` defaults. Its quality list is
 * `Media.FixedQualities` and its downloads are `Media.SocialDownloadVideo`
 * and `Media.SocialDownloadAudio` with `UsesBaseOptions`.
 */
module TikTokService {
  import opened Wrappers
  import opened Media

  /** Every yt-dlp call of this adapter spreads in the shared base options. */
  const UsesBaseOptions := true

  /** `(https?://)?(www\.|vm\.|vt\.)?tiktok\.com/[\w\-@/.]+`. */
  const Pattern := UrlPattern(["", "www.", "vm.", "vt."], ["tiktok.com/"], TikTokPathChars)

  predicate Detect(url: string)
  {
    Search(Pattern, url)
  }

  /** `detect` holds exactly when `tiktok.com/` is followed by a `[\w\-@/.]` character. */
  lemma DetectIffLiteral(url: string)
    ensures Detect(url) <==> exists i: nat | i <= |url| :: LiteralThenClass(url, "tiktok.com/", i, TikTokPathChars)
  {
    SearchIffLiteral(Pattern, url);
    if Detect(url) {
      var l, i: nat :| l in Pattern.literals && i <= |url| && LiteralThenClass(url, l, i, Pattern.cls);
      assert l == "tiktok.com/";
    }
  }

  /** `get_info`: `None` when yt-dlp raises; otherwise title, uploader and id default to `TikTok Video`, `TikTok`, `tiktok`. */
  function GetInfo(url: string, extract: string -> Option<RawInfo>): (r: Option<MediaInfo>)
    ensures r.Some? <==> extract(url).Some?
    ensures r.Some? ==>
              var raw := extract(url).value;
              r.value.title == raw.title.GetOr("TikTok Video") && r.value.channel == raw.uploader.GetOr("TikTok") &&
              r.value.id == raw.id.GetOr("tiktok") && r.value.url == url && r.value.formats == []
  {
    SocialInfo(url, extract(url), "TikTok Video", "TikTok", "tiktok")
  }
}
