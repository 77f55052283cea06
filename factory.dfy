/**
 * `DownloaderFactory` (services/downloaders/factory.py): a first-match scan
 * over the ordered adapter list, and the platform name of the adapter found.
 *
 * The interface of services/downloaders/base.py is mirrored as one datatype
 * with a constructor per adapter. The Instagram and Snapchat adapters are
 * not part of this model: their `detect` is a parameter.
 *
 * The bot handlers take each adapter's downloads as the parameters
 * `video(a, url, path, quality)` and `audio(a, url, path)`. For the
 * adapters modelled here, they stand for:
 *   - `YouTube`: `YouTubeService.DownloadVideo` and `YouTubeService.DownloadAudio`;
 *   - `TikTok`: `Media.SocialDownloadVideo` and `Media.SocialDownloadAudio`, with
 *     `TikTokService.UsesBaseOptions`;
 *   - `Likee`: the same, with `LikeeService.UsesBaseOptions`.
 */
module Factory {
  import opened Wrappers
  import YouTubeService
  import TikTokService
  import LikeeService

  datatype Adapter = YouTube | Instagram | TikTok | Snapchat | Likee

  /** `_downloaders`, in order. */
  const Downloaders := [YouTube, Instagram, TikTok, Snapchat, Likee]

  /** The `detect` of the two adapters whose source is not shown. */
  datatype Detectors = Detectors(instagram: string -> bool, snapchat: string -> bool)

  /** `adapter.detect(url)`. */
  predicate Detects(a: Adapter, url: string, d: Detectors)
  {
    match a
    case YouTube => YouTubeService.Detect(url)
    case Instagram => d.instagram(url)
    case TikTok => TikTokService.Detect(url)
    case Snapchat => d.snapchat(url)
    case Likee => LikeeService.Detect(url)
  }

  /** The first adapter of `ds` that detects `url`; `None` when none does. */
  function FirstDetecting(ds: seq<Adapter>, url: string, d: Detectors): (r: Option<Adapter>)
    ensures r.Some? ==> exists k :: 0 <= k < |ds| && ds[k] == r.value && Detects(r.value, url, d) &&
                          forall j :: 0 <= j < k ==> !Detects(ds[j], url, d)
    ensures r.None? <==> forall k :: 0 <= k < |ds| ==> !Detects(ds[k], url, d)
  {
    if ds == [] then None
    else if Detects(ds[0], url, d) then Some(ds[0])
    else
      var r := FirstDetecting(ds[1..], url, d);
      assert forall k :: 1 <= k < |ds| ==> ds[k] == ds[1..][k - 1];
      r
  }

  /** `get_downloader`: the loop with its early return, proved to compute the first detecting adapter. */
  method GetDownloader(url: string, d: Detectors) returns (r: Option<Adapter>)
    ensures r == FirstDetecting(Downloaders, url, d)
  {
    var i := 0;
    while i < |Downloaders|
      invariant 0 <= i <= |Downloaders|
      invariant FirstDetecting(Downloaders[i..], url, d) == FirstDetecting(Downloaders, url, d)
    {
      var downloader := Downloaders[i];
      assert Downloaders[i..][0] == downloader && Downloaders[i..][1..] == Downloaders[i + 1..];
      if Detects(downloader, url, d) {
        return Some(downloader);
      }
      i := i + 1;
    }
    return None;
  }

  /** The `isinstance` chain. */
  function PlatformName(a: Adapter): (name: string)
    ensures name != "other"
  {
    match a
    case YouTube => "youtube"
    case Instagram => "instagram"
    case TikTok => "tiktok"
    case Snapchat => "snapchat"
    case Likee => "likee"
  }

  /** `detect_platform`: the name of the adapter found, `other` when there is none. */
  function DetectPlatform(url: string, d: Detectors): (r: string)
    ensures r == "other" <==> FirstDetecting(Downloaders, url, d).None?
  {
    var a := FirstDetecting(Downloaders, url, d);
    if a.Some? then PlatformName(a.value) else "other"
  }

  /** A YouTube url goes to the YouTube adapter whatever the others would say. */
  lemma YouTubeFirst(url: string, d: Detectors)
    requires YouTubeService.Detect(url)
    ensures FirstDetecting(Downloaders, url, d) == Some(YouTube)
  {
  }

  /** An adapter is chosen only if every adapter listed before it declines. */
  lemma {:induction false} ChosenAfterDeclines(url: string, d: Detectors, a: Adapter)
    requires FirstDetecting(Downloaders, url, d) == Some(a)
    ensures Detects(a, url, d)
    ensures forall k :: 0 <= k < |Downloaders| && Downloaders[k] == a ==>
              forall j :: 0 <= j < k ==> !Detects(Downloaders[j], url, d)
  {
    var k :| 0 <= k < |Downloaders| && Downloaders[k] == a && forall j :: 0 <= j < k ==> !Detects(Downloaders[j], url, d);
    forall k' | 0 <= k' < |Downloaders| && Downloaders[k'] == a
      ensures forall j :: 0 <= j < k' ==> !Detects(Downloaders[j], url, d)
    {
      assert k' == k;
    }
  }

  /** The names are distinct, so a name determines the adapter. */
  lemma PlatformNameInjective(a: Adapter, b: Adapter)
    ensures PlatformName(a) == PlatformName(b) <==> a == b
  {
  }

  /**
   * `detect_platform` is `other` exactly when `get_downloader` finds nothing,
   * and otherwise names the adapter it finds.
   */
  lemma PlatformMatchesDownloader(url: string, d: Detectors)
    ensures var a := FirstDetecting(Downloaders, url, d);
            (DetectPlatform(url, d) == "other" <==> a.None?) &&
            (a.Some? ==> DetectPlatform(url, d) == PlatformName(a.value)) &&
            (a.None? <==> forall k :: 0 <= k < |Downloaders| ==> !Detects(Downloaders[k], url, d))
  {
  }
}
