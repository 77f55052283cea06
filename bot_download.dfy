/**
 * The download side of the bot (bot/handlers/download.py): the quality and
 * social keyboards, what `handle_download_request` keeps in the session,
 * and the status lifecycle of the download record `process_download` writes.
 *
 * `hash(url)` is randomised per process: `str(abs(hash(url)))[-10:]` is the
 * parameter `hashOf`. The adapters' downloads are the parameters `video`
 * and `audio` (adapter, url, output path); the `Factory` module comment
 * names the member each adapter's download stands for. Float formatting of sizes is the parameter
 * `formatSize`.
 */
module BotDownload {
  import opened Wrappers
  import PyStr
  import Media
  import Factory
  import opened Session
  import opened Keyboard

  /** `PLATFORM_NAMES.get(platform, platform)`. */
  function DisplayName(platform: string): (r: string)
    ensures platform in {"youtube", "instagram", "tiktok", "snapchat", "likee"} <==> r != platform
    ensures r == "" <==> platform == ""
  {
    if platform == "youtube" then "YouTube"
    else if platform == "instagram" then "Instagram"
    else if platform == "tiktok" then "TikTok"
    else if platform == "snapchat" then "Snapchat"
    else if platform == "likee" then "Likee"
    else platform
  }

  /** `format_filesize(size)`: `?MB` for a zero size; other sizes are float-formatted by `formatSize`. */
  function SizeText(size: int, formatSize: int -> string): string
  {
    if size == 0 then "?MB" else formatSize(size)
  }

  const AudioIcon := "\U{1F3B5}"
  const FileIcon := "\U{1F4C1}"

  /** The audio-only entry of the quality menu. */
  predicate IsAudio(q: Media.Quality)
  {
    q.text == "Audio"
  }

  /** The button of one quality: `{icon} {label} - {size}`, sending `ytdl_{video_id}_{height}`. */
  function QualityButton(q: Media.Quality, videoId: string, formatSize: int -> string): Button
  {
    var icon := if IsAudio(q) then AudioIcon else FileIcon;
    Button(icon + " " + q.text + " - " + SizeText(q.filesize, formatSize), "ytdl_" + videoId + "_" + q.height)
  }

  /** A quality's button carries the video id and the height, and shows the audio icon exactly for `Audio`. */
  lemma QualityButtonShape(q: Media.Quality, videoId: string, formatSize: int -> string)
    ensures var b := QualityButton(q, videoId, formatSize);
            b.data == "ytdl_" + videoId + "_" + q.height &&
            (PyStr.StartsWith(b.text, AudioIcon) <==> IsAudio(q))
  {
    var b := QualityButton(q, videoId, formatSize);
    var icon := if IsAudio(q) then AudioIcon else FileIcon;
    assert b.text[..1] == icon;
  }

  /** One button per quality, in order. */
  function Buttons(qs: seq<Media.Quality>, videoId: string, formatSize: int -> string): (bs: seq<Button>)
    ensures |bs| == |qs| && forall i :: 0 <= i < |qs| ==> bs[i] == QualityButton(qs[i], videoId, formatSize)
  {
    if qs == [] then [] else [QualityButton(qs[0], videoId, formatSize)] + Buttons(qs[1..], videoId, formatSize)
  }

  /** Which qualities close their row: the `Audio` ones. */
  function AudioFlags(qs: seq<Media.Quality>): (es: seq<bool>)
    ensures |es| == |qs| && forall i :: 0 <= i < |qs| ==> es[i] == IsAudio(qs[i])
  {
    if qs == [] then [] else [IsAudio(qs[0])] + AudioFlags(qs[1..])
  }

  /** The keyboard: two buttons to a row, and a row closes after an `Audio` button. */
  function Rows(qs: seq<Media.Quality>, videoId: string, formatSize: int -> string): seq<seq<Button>>
  {
    Group(Buttons(qs, videoId, formatSize), AudioFlags(qs))
  }

  /** `build_youtube_keyboard(qualities, video_id)`: the row loop, proved to build `Rows`. */
  method BuildYouTubeKeyboard(qualities: seq<Media.Quality>, videoId: string, formatSize: int -> string)
    returns (rows: seq<seq<Button>>)
    ensures rows == Rows(qualities, videoId, formatSize)
  {
    ghost var bs := Buttons(qualities, videoId, formatSize);
    ghost var es := AudioFlags(qualities);
    rows := [];
    var row: seq<Button> := [];
    var i := 0;
    while i < |qualities|
      invariant 0 <= i <= |qualities|
      invariant Layout(bs[i..], es[i..], rows, row) == Layout(bs, es, [], [])
    {
      var fmt := qualities[i];
      var button := QualityButton(fmt, videoId, formatSize);
      assert bs[i..][0] == button && es[i..][0] == IsAudio(fmt) && bs[i..][1..] == bs[i + 1..] && es[i..][1..] == es[i + 1..];
      row := row + [button];
      if |row| == 2 || IsAudio(fmt) {
        rows := rows + [row];
        row := [];
      }
      i := i + 1;
    }
    if row != [] {
      rows := rows + [row];
    }
    LayoutGroup(bs, es);
  }

  /** The keyboard holds one button per quality, in the order of the qualities. */
  lemma RowsFlatten(qs: seq<Media.Quality>, videoId: string, formatSize: int -> string)
    ensures Flatten(Rows(qs, videoId, formatSize)) == Buttons(qs, videoId, formatSize)
  {
    GroupFlatten(Buttons(qs, videoId, formatSize), AudioFlags(qs));
  }

  /** A row always ends at an `Audio` button: the keyboard splits into the rows up to it and the rows after it. */
  lemma AudioEndsRow(qs: seq<Media.Quality>, k: nat, videoId: string, formatSize: int -> string)
    requires k < |qs| && IsAudio(qs[k])
    ensures Rows(qs, videoId, formatSize) == Rows(qs[..k + 1], videoId, formatSize) + Rows(qs[k + 1..], videoId, formatSize)
  {
    ButtonsSplit(qs, k + 1, videoId, formatSize);
    FlagsSplit(qs, k + 1);
    GroupSplit(Buttons(qs, videoId, formatSize), AudioFlags(qs), k);
  }

  /** The buttons of the first `n` qualities and of the rest are those parts of the buttons. */
  lemma ButtonsSplit(qs: seq<Media.Quality>, n: nat, videoId: string, formatSize: int -> string)
    requires n <= |qs|
    ensures Buttons(qs[..n], videoId, formatSize) == Buttons(qs, videoId, formatSize)[..n]
    ensures Buttons(qs[n..], videoId, formatSize) == Buttons(qs, videoId, formatSize)[n..]
  {
    ButtonsTake(qs, n, videoId, formatSize);
    ButtonsDrop(qs, n, videoId, formatSize);
  }

  lemma {:induction false} ButtonsTake(qs: seq<Media.Quality>, n: nat, videoId: string, formatSize: int -> string)
    requires n <= |qs|
    ensures Buttons(qs[..n], videoId, formatSize) == Buttons(qs, videoId, formatSize)[..n]
  {
    if n > 0 {
      ButtonsTake(qs[1..], n - 1, videoId, formatSize);
      assert qs[..n][0] == qs[0] && qs[..n][1..] == qs[1..][..n - 1];
    }
  }

  lemma {:induction false} ButtonsDrop(qs: seq<Media.Quality>, n: nat, videoId: string, formatSize: int -> string)
    requires n <= |qs|
    ensures Buttons(qs[n..], videoId, formatSize) == Buttons(qs, videoId, formatSize)[n..]
  {
    if n > 0 {
      ButtonsDrop(qs[1..], n - 1, videoId, formatSize);
      assert qs[n..] == qs[1..][n - 1..];
    }
  }

  /** The flags of the first `n` qualities and of the rest are those parts of the flags. */
  lemma FlagsSplit(qs: seq<Media.Quality>, n: nat)
    requires n <= |qs|
    ensures AudioFlags(qs[..n]) == AudioFlags(qs)[..n]
    ensures AudioFlags(qs[n..]) == AudioFlags(qs)[n..]
  {
    FlagsTake(qs, n);
    FlagsDrop(qs, n);
  }

  lemma {:induction false} FlagsTake(qs: seq<Media.Quality>, n: nat)
    requires n <= |qs|
    ensures AudioFlags(qs[..n]) == AudioFlags(qs)[..n]
  {
    if n > 0 {
      FlagsTake(qs[1..], n - 1);
      assert qs[..n][0] == qs[0] && qs[..n][1..] == qs[1..][..n - 1];
    }
  }

  lemma {:induction false} FlagsDrop(qs: seq<Media.Quality>, n: nat)
    requires n <= |qs|
    ensures AudioFlags(qs[n..]) == AudioFlags(qs)[n..]
  {
    if n > 0 {
      FlagsDrop(qs[1..], n - 1);
      assert qs[n..] == qs[1..][n - 1..];
    }
  }

  /** `build_social_keyboard(platform, url_hash)`: one row, a video and an audio button. */
  function BuildSocialKeyboard(platform: string, urlHash: string): (rows: seq<seq<Button>>)
    ensures |rows| == 1 && |rows[0]| == 2
    ensures rows[0][0].data == "social_video_" + platform + "_" + urlHash
    ensures rows[0][1].data == "social_audio_" + platform + "_" + urlHash
  {
    [[Button(FileIcon + " Video", "social_video_" + platform + "_" + urlHash),
      Button(AudioIcon + " Audio", "social_audio_" + platform + "_" + urlHash)]]
  }

  // ---- handle_download_request ----

  /** The number of characters of the id kept for the callback data. */
  const VideoIdLength := 20

  /** The reply to a link. */
  datatype DownloadReply =
    | InfoFailed(platformName: string)                      // `get_info` gave nothing
    | QualityMenu(info: Media.MediaInfo, keyboard: seq<seq<Button>>)
    | SocialMenu(info: Media.MediaInfo, platformName: string, keyboard: seq<seq<Button>>)

  /** The keys `handle_download_request` writes, in order. */
  function StoredSlots(slots: seq<Slot>, url: string, platform: string, info: Media.MediaInfo, h: string): seq<Slot>
  {
    var s := Put(Put(slots, "url_" + h, Text(url)), "platform_" + h, Text(platform));
    if platform == "youtube" then
      Put(Put(s, "info_" + h, InfoDict(info)), "video_id_" + h, Text(PyStr.Take(info.id, VideoIdLength)))
    else Put(s, "info_" + h, InfoDict(info))
  }

  /**
   * After a link the session holds its url, platform and info under the
   * url hash, and for YouTube also the id cut to 20 characters; no other key changes.
   */
  lemma StoredLookup(slots: seq<Slot>, url: string, platform: string, info: Media.MediaInfo, h: string, k: string)
    ensures var s := StoredSlots(slots, url, platform, info, h);
            Get(s, k) == (if k == "url_" + h then Some(Text(url))
                          else if k == "platform_" + h then Some(Text(platform))
                          else if k == "info_" + h then Some(InfoDict(info))
                          else if k == "video_id_" + h && platform == "youtube" then Some(Text(PyStr.Take(info.id, VideoIdLength)))
                          else Get(slots, k))
  {
    var s1 := Put(slots, "url_" + h, Text(url));
    var s2 := Put(s1, "platform_" + h, Text(platform));
    var s3 := Put(s2, "info_" + h, InfoDict(info));
    GetPut(slots, "url_" + h, Text(url), k);
    GetPut(s1, "platform_" + h, Text(platform), k);
    GetPut(s2, "info_" + h, InfoDict(info), k);
    GetPut(s3, "video_id_" + h, Text(PyStr.Take(info.id, VideoIdLength)), k);
    assert ("url_" + h)[0] == 'u' && ("platform_" + h)[0] == 'p' && ("info_" + h)[0] == 'i' && ("video_id_" + h)[0] == 'v';
  }

  /**
   * `handle_download_request(url, downloader)`, where `info` and `qualities`
   * are the adapter's `get_info(url)` and `get_available_qualities(url)`.
   */
  method HandleDownloadRequest(ud: UserData, url: string, d: Factory.Detectors, info: Option<Media.MediaInfo>,
                               qualities: seq<Media.Quality>, hashOf: string -> string, formatSize: int -> string)
    returns (reply: DownloadReply)
    requires ud.Valid()
    modifies ud
    ensures ud.Valid()
    ensures var platform := Factory.DetectPlatform(url, d);
            (info.None? ==> reply == InfoFailed(DisplayName(platform)) && ud.slots == old(ud.slots)) &&
            (info.Some? ==> ud.slots == StoredSlots(old(ud.slots), url, platform, info.value, hashOf(url))) &&
            (info.Some? && platform == "youtube" ==>
               reply == QualityMenu(info.value, Rows(qualities, PyStr.Take(info.value.id, VideoIdLength), formatSize))) &&
            (info.Some? && platform != "youtube" ==>
               reply == SocialMenu(info.value, DisplayName(platform), BuildSocialKeyboard(platform, hashOf(url))))
  {
    var platform := Factory.DetectPlatform(url, d);
    var platformName := DisplayName(platform);
    if info.None? {
      return InfoFailed(platformName);
    }
    var urlHash := hashOf(url);
    ud.Set("url_" + urlHash, Text(url));
    ud.Set("platform_" + urlHash, Text(platform));
    if platform == "youtube" {
      var videoId := PyStr.Take(info.value.id, VideoIdLength);
      ud.Set("info_" + urlHash, InfoDict(info.value));
      ud.Set("video_id_" + urlHash, Text(videoId));
      var keyboard := BuildYouTubeKeyboard(qualities, videoId, formatSize);
      reply := QualityMenu(info.value, keyboard);
    } else {
      var keyboard := BuildSocialKeyboard(platform, urlHash);
      ud.Set("info_" + urlHash, InfoDict(info.value));
      reply := SocialMenu(info.value, platformName, keyboard);
    }
  }

  // ---- process_download ----

  /** `os.path.join(DOWNLOADS_DIR, f'{platform}_{video_id}.mp4')`. */
  function VideoPath(dir: string, platform: string, videoId: string): string
  {
    dir + "/" + platform + "_" + videoId + Media.VideoSuffix
  }

  /** `os.path.join(DOWNLOADS_DIR, f'{platform}_{video_id}_audio.mp3')`. */
  function AudioPath(dir: string, platform: string, videoId: string): string
  {
    dir + "/" + platform + "_" + videoId + "_audio" + Media.AudioSuffix
  }

  /** The video path ends in `.mp4` and the audio path in `_audio.mp3`, so the first probe is the path itself. */
  lemma PathSuffixes(dir: string, platform: string, videoId: string)
    ensures var v := VideoPath(dir, platform, videoId);
            |v| >= 4 && v[|v| - 4..] == ".mp4"
    ensures var a := AudioPath(dir, platform, videoId);
            |a| >= 10 && a[|a| - 10..] == "_audio.mp3"
  {
    var v := VideoPath(dir, platform, videoId);
    assert v == (dir + "/" + platform + "_" + videoId) + ".mp4";
    var a := AudioPath(dir, platform, videoId);
    assert a == (dir + "/" + platform + "_" + videoId) + "_audio.mp3";
  }

  /** `DownloadHistory.status`. */
  datatype Status = Pending | Processing | Completed | Failed

  /** The status changes `process_download` makes. */
  predicate Step(a: Status, b: Status)
  {
    (a == Processing && (b == Completed || b == Failed)) || (a == Completed && b == Failed)
  }

  /** What happens in the `try` block once the file exists. */
  datatype Delivery =
    | Delivered                      // size read, record saved, file sent
    | SizeRaised(error: string)      // `os.path.getsize` raised before the status was set
    | SendRaised(error: string)      // the record was marked completed, then saving or sending raised

  /** The statuses a record goes through: created `processing`, then per the outcome. */
  function Lifecycle(fileOk: bool, delivery: Delivery): (ss: seq<Status>)
    ensures |ss| >= 2 && ss[0] == Processing
  {
    if !fileOk then [Processing, Failed]
    else match delivery
      case Delivered => [Processing, Completed]
      case SizeRaised(_) => [Processing, Failed]
      case SendRaised(_) => [Processing, Completed, Failed]
  }

  /** The error message the record ends with. */
  function FinalError(fileOk: bool, delivery: Delivery): Option<string>
  {
    if !fileOk then Some("Download failed")
    else match delivery
      case Delivered => None
      case SizeRaised(e) => Some(e)
      case SendRaised(e) => Some(e)
  }

  /**
   * The lifecycle only takes allowed steps and ends `failed` exactly when
   * no file came back or delivering it raised, with the matching message.
   */
  lemma LifecycleLegal(fileOk: bool, delivery: Delivery)
    ensures var ss := Lifecycle(fileOk, delivery);
            (forall i :: 0 <= i < |ss| - 1 ==> Step(ss[i], ss[i + 1])) &&
            (ss[|ss| - 1] == Failed <==> !fileOk || !delivery.Delivered?) &&
            (ss[|ss| - 1] == Completed <==> fileOk && delivery.Delivered?) &&
            (FinalError(fileOk, delivery).Some? <==> ss[|ss| - 1] == Failed) &&
            (!fileOk ==> FinalError(fileOk, delivery) == Some("Download failed"))
  {
  }

  /** A `DownloadHistory` row whose status and error message `process_download` updates. */
  class DownloadRecord {
    const videoUrl: string
    const videoTitle: string
    const platform: Option<string>
    const formatLabel: string
    var status: Status
    var errorMessage: Option<string>

    /** `DownloadHistory.objects.create(..., status='processing')`. */
    constructor(videoUrl: string, videoTitle: string, platform: Option<string>, formatLabel: string)
      ensures this.videoUrl == videoUrl && this.videoTitle == videoTitle && this.platform == platform &&
              this.formatLabel == formatLabel
      ensures status == Processing && errorMessage.None?
    {
      this.videoUrl := videoUrl;
      this.videoTitle := videoTitle;
      this.platform := platform;
      this.formatLabel := formatLabel;
      status := Processing;
      errorMessage := None;
    }

    /** The updates after the download: the status steps through `Lifecycle`, ending with `FinalError`'s message. */
    method Conclude(fileOk: bool, delivery: Delivery)
      requires status == Processing && errorMessage.None?
      modifies this
      ensures status == Lifecycle(fileOk, delivery)[|Lifecycle(fileOk, delivery)| - 1]
      ensures errorMessage == FinalError(fileOk, delivery)
    {
      if fileOk {
        match delivery
        case Delivered =>
          status := Completed;
        case SizeRaised(e) =>
          status := Failed;
          errorMessage := Some(e);
        case SendRaised(e) =>
          status := Completed;
          status := Failed;
          errorMessage := Some(e);
      } else {
        status := Failed;
        errorMessage := Some("Download failed");
      }
    }
  }

  /** How `process_download` ends. */
  datatype ProcessOutcome =
    | LinkMissing                    // no `url_{h}` in the session
    | PlatformUnknown                // no adapter detects the stored url
    | UserMissing
    | OtherFormat                    // neither 'video' nor 'audio'
    | Attempted(outputPath: string, file: Option<string>, fileOk: bool)

  /** The stored string under `key`, if any. */
  function TextAt(slots: seq<Slot>, key: string): (r: Option<string>)
    ensures r.Some? <==> Get(slots, key).Some? && Get(slots, key).value.Text?
    ensures r.Some? ==> Get(slots, key) == Some(Text(r.value))
  {
    match Get(slots, key)
    case Some(Text(s)) => Some(s)
    case _ => None
  }

  /** The stored info under `key`, if any. */
  function InfoAt(slots: seq<Slot>, key: string): (r: Option<Media.MediaInfo>)
    ensures r.Some? <==> Get(slots, key).Some? && Get(slots, key).value.InfoDict?
    ensures r.Some? ==> Get(slots, key) == Some(InfoDict(r.value))
  {
    match Get(slots, key)
    case Some(InfoDict(i)) => Some(i)
    case _ => None
  }

  /** The url stored for a hash, when it is truthy. */
  function UrlFor(slots: seq<Slot>, h: string): Option<string>
  {
    var u := TextAt(slots, "url_" + h);
    if u.Some? && u.value != "" then u else None
  }

  /** `f'{platform}'` of `user_data.get(f'platform_{h}')`: a missing platform prints as `None`. */
  function PlatformText(slots: seq<Slot>, h: string): string
  {
    TextAt(slots, "platform_" + h).GetOr("None")
  }

  /** `info.get('title', default)` of the stored info, `{}` when none is stored. */
  function TitleOr(slots: seq<Slot>, h: string, default: string): string
  {
    var i := InfoAt(slots, "info_" + h);
    if i.Some? then i.value.title else default
  }

  /**
   * `process_download(url_hash, format_type, quality)`. The record's final
   * status and message follow `Lifecycle` and `FinalError`; the download
   * writes to `{platform}_{hash}.mp4` or `{platform}_{hash}_audio.mp3`.
   */
  method ProcessDownload(ud: UserData, urlHash: string, formatType: string, quality: Option<string>,
                         d: Factory.Detectors, hasUser: bool, dir: string, hashOf: string -> string,
                         video: (Factory.Adapter, string, string, Option<string>) -> Option<string>,
                         audio: (Factory.Adapter, string, string) -> Option<string>,
                         isFile: string -> bool, delivery: Delivery)
    returns (outcome: ProcessOutcome, record: Option<DownloadRecord>)
    ensures var url := UrlFor(ud.slots, urlHash);
            var adapter := if url.Some? then Factory.FirstDetecting(Factory.Downloaders, url.value, d) else None;
            (url.None? ==> outcome == LinkMissing) &&
            (url.Some? && adapter.None? ==> outcome == PlatformUnknown) &&
            (url.Some? && adapter.Some? && (formatType == "video" || formatType == "audio") && !hasUser ==> outcome == UserMissing) &&
            (url.Some? && adapter.Some? && formatType != "video" && formatType != "audio" ==> outcome == OtherFormat) &&
            (url.Some? && adapter.Some? && (formatType == "video" || formatType == "audio") && hasUser ==> outcome.Attempted?) &&
            (record.Some? <==> outcome.Attempted?) &&
            (outcome.Attempted? ==>
               var platform := PlatformText(ud.slots, urlHash);
               var r := record.value;
               fresh(r) &&
               (formatType == "video" ==>
                  outcome.outputPath == VideoPath(dir, platform, hashOf(url.value)) &&
                  outcome.file == video(adapter.value, url.value, outcome.outputPath, quality) &&
                  r.formatLabel == "Video" && r.videoTitle == TitleOr(ud.slots, urlHash, "Video")) &&
               (formatType == "audio" ==>
                  outcome.outputPath == AudioPath(dir, platform, hashOf(url.value)) &&
                  outcome.file == audio(adapter.value, url.value, outcome.outputPath) &&
                  r.formatLabel == "Audio" && r.videoTitle == TitleOr(ud.slots, urlHash, "Audio")) &&
               outcome.fileOk == (outcome.file.Some? && outcome.file.value != "" && isFile(outcome.file.value)) &&
               r.videoUrl == url.value && r.platform == TextAt(ud.slots, "platform_" + urlHash) &&
               r.status == Lifecycle(outcome.fileOk, delivery)[|Lifecycle(outcome.fileOk, delivery)| - 1] &&
               r.errorMessage == FinalError(outcome.fileOk, delivery))
  {
    var url := UrlFor(ud.slots, urlHash);
    if url.None? {
      return LinkMissing, None;
    }
    var downloader := Factory.GetDownloader(url.value, d);
    if downloader.None? {
      return PlatformUnknown, None;
    }
    var platform := PlatformText(ud.slots, urlHash);
    if formatType != "video" && formatType != "audio" {
      return OtherFormat, None;
    }
    if !hasUser {
      return UserMissing, None;
    }
    var isVideo := formatType == "video";
    var formatLabel := if isVideo then "Video" else "Audio";
    var r;
    outcome, r := Attempt(downloader.value, url.value, isVideo, TitleOr(ud.slots, urlHash, formatLabel),
                          TextAt(ud.slots, "platform_" + urlHash), platform, quality, dir, hashOf, video, audio,
                          isFile, delivery);
    record := Some(r);
  }

  /**
   * The part of `process_download` after the checks: the record is created
   * `processing`, the adapter downloads to the path of the format, and the
   * record is concluded by the outcome.
   */
  method Attempt(adapter: Factory.Adapter, url: string, isVideo: bool, title: string, storedPlatform: Option<string>,
                 platform: string, quality: Option<string>, dir: string, hashOf: string -> string,
                 video: (Factory.Adapter, string, string, Option<string>) -> Option<string>,
                 audio: (Factory.Adapter, string, string) -> Option<string>,
                 isFile: string -> bool, delivery: Delivery)
    returns (outcome: ProcessOutcome, r: DownloadRecord)
    ensures fresh(r) && outcome.Attempted?
    ensures outcome.outputPath == if isVideo then VideoPath(dir, platform, hashOf(url)) else AudioPath(dir, platform, hashOf(url))
    ensures outcome.file == if isVideo then video(adapter, url, outcome.outputPath, quality) else audio(adapter, url, outcome.outputPath)
    ensures outcome.fileOk == (outcome.file.Some? && outcome.file.value != "" && isFile(outcome.file.value))
    ensures r.videoUrl == url && r.videoTitle == title && r.platform == storedPlatform &&
            r.formatLabel == (if isVideo then "Video" else "Audio")
    ensures r.status == Lifecycle(outcome.fileOk, delivery)[|Lifecycle(outcome.fileOk, delivery)| - 1]
    ensures r.errorMessage == FinalError(outcome.fileOk, delivery)
  {
    var formatLabel := if isVideo then "Video" else "Audio";
    r := new DownloadRecord(url, title, storedPlatform, formatLabel);
    var videoId := hashOf(url);
    var outputPath := if isVideo then VideoPath(dir, platform, videoId) else AudioPath(dir, platform, videoId);
    var filePath := if isVideo then video(adapter, url, outputPath, quality) else audio(adapter, url, outputPath);
    var fileOk := filePath.Some? && filePath.value != "" && isFile(filePath.value);
    r.Conclude(fileOk, delivery);
    outcome := Attempted(outputPath, filePath, fileOk);
  }
}
