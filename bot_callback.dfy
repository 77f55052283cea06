/**
 * `callback_handler` (bot/handlers/callback.py): what the bot does when a
 * keyboard button is pressed. The callback data picks a handler; each
 * handler reads the session, and `cancel` and `page_` change it.
 *
 * Downloads, the existence and size of files, the user lookup and whether
 * sending raised are parameters; deleting the downloaded file afterwards
 * is not modelled.
 */
module BotCallback {
  import opened Wrappers
  import PyStr
  import opened Tracks
  import Media
  import Factory
  import opened Session
  import opened Keyboard
  import BotSearch
  import BotDownload
  import Shazam

  // ---- dispatch ----

  /** The handler a callback reaches, by the tests on its data in order. */
  datatype Route = CancelRoute | PageRoute | SelectRoute | YtdlRoute | SocialRoute | MusicRoute | NoRoute

  function RouteOf(data: string): (r: Route)
    ensures r == CancelRoute <==> data == "cancel"
    ensures r == PageRoute ==> PyStr.StartsWith(data, "page_")
    ensures r == SelectRoute ==> PyStr.StartsWith(data, "select_")
    ensures r == YtdlRoute ==> PyStr.StartsWith(data, "ytdl_")
    ensures r == SocialRoute ==> PyStr.StartsWith(data, "social_video_") || PyStr.StartsWith(data, "social_audio_")
    ensures r == MusicRoute ==> PyStr.StartsWith(data, "music_instagram_")
  {
    if data == "cancel" then CancelRoute
    else if PyStr.StartsWith(data, "page_") then PageRoute
    else if PyStr.StartsWith(data, "select_") then SelectRoute
    else if PyStr.StartsWith(data, "ytdl_") then YtdlRoute
    else if PyStr.StartsWith(data, "social_video_") || PyStr.StartsWith(data, "social_audio_") then SocialRoute
    else if PyStr.StartsWith(data, "music_instagram_") then MusicRoute
    else NoRoute
  }

  /** A select button reaches the `select_` handler. */
  lemma SelectButtonRoutes(n: int)
    ensures RouteOf(BotSearch.SelectButton(n).data) == SelectRoute
  {
    var s := BotSearch.SelectButton(n).data;
    assert s[..7] == "select_";
    assert s[0] == 's' && s[1] == 'e';
  }

  /** A navigation arrow reaches the `page_` handler, and the middle button `cancel`. */
  lemma NavRowRoutes(page: int)
    ensures RouteOf(BotSearch.NavRow(page)[0].data) == PageRoute
    ensures RouteOf(BotSearch.NavRow(page)[1].data) == CancelRoute
    ensures RouteOf(BotSearch.NavRow(page)[2].data) == PageRoute
  {
    var b, f := BotSearch.NavRow(page)[0].data, BotSearch.NavRow(page)[2].data;
    assert b[..5] == "page_";
    assert f[..5] == "page_";
  }

  /** A quality button reaches the `ytdl_` handler. */
  lemma QualityButtonRoutes(q: Media.Quality, videoId: string, formatSize: int -> string)
    ensures RouteOf(BotDownload.QualityButton(q, videoId, formatSize).data) == YtdlRoute
  {
    var y := BotDownload.QualityButton(q, videoId, formatSize).data;
    assert y[..5] == "ytdl_";
    assert y[0] == 'y';
  }

  /** Data that begins `social_video_` or `social_audio_` reaches the social handler. */
  lemma SocialDataRoutes(d: string)
    requires PyStr.StartsWith(d, "social_video_") || PyStr.StartsWith(d, "social_audio_")
    ensures RouteOf(d) == SocialRoute
  {
    assert d[0] == d[..13][0] == 's' && d[1] == d[..13][1] == 'o';
  }

  /** Both buttons of the social keyboard reach the social handler. */
  lemma SocialButtonsRoute(platform: string, urlHash: string)
    ensures RouteOf(BotDownload.BuildSocialKeyboard(platform, urlHash)[0][0].data) == SocialRoute
    ensures RouteOf(BotDownload.BuildSocialKeyboard(platform, urlHash)[0][1].data) == SocialRoute
  {
    var v := "social_video_" + platform + "_" + urlHash;
    var a := "social_audio_" + platform + "_" + urlHash;
    assert v[..13] == "social_video_";
    assert a[..13] == "social_audio_";
    SocialDataRoutes(v);
    SocialDataRoutes(a);
  }

  /** `int(data.split('_')[1])`; `None` where Python raises. */
  function SecondField(data: string): Option<int>
  {
    var parts := PyStr.Split(data, '_');
    if |parts| < 2 then None else PyStr.ParseInt(parts[1])
  }

  /** `prefix_{n}` reads back as `n` when the prefix holds no `_`. */
  lemma SecondFieldOf(prefix: string, n: int)
    requires '_' !in prefix
    ensures SecondField(prefix + "_" + PyStr.IntToString(n)) == Some(n)
  {
    var t := PyStr.IntToString(n);
    PyStr.IntToStringShape(n);
    PyStr.SplitCons(prefix, '_', t);
    PyStr.SplitNone(t, '_');
    assert prefix + "_" + t == prefix + ['_'] + t;
    PyStr.ParseIntOfIntToString(n);
  }

  /** A select button's data reads back as the result index it was built for. */
  lemma SelectIndexRoundTrip(n: int)
    ensures SecondField(BotSearch.SelectButton(n).data) == Some(n)
  {
    var t := PyStr.IntToString(n);
    assert BotSearch.SelectButton(n).data == "select" + "_" + t by {
      assert "select" + "_" == "select_";
    }
    SecondFieldOf("select", n);
  }

  /** A navigation button's data reads back as the page it was built for. */
  lemma PageIndexRoundTrip(icon: string, n: int)
    ensures SecondField(BotSearch.PageButton(icon, n).data) == Some(n)
  {
    var t := PyStr.IntToString(n);
    assert BotSearch.PageButton(icon, n).data == "page" + "_" + t by {
      assert "page" + "_" == "page_";
    }
    SecondFieldOf("page", n);
  }

  /** `context.user_data.get('results', [])`. */
  function ResultsOf(slots: seq<Slot>): seq<Track>
  {
    match Get(slots, "results")
    case Some(TrackList(ts)) => ts
    case _ => []
  }

  // ---- cancel ----

  /** The session after `cancel`. */
  function Cancelled(slots: seq<Slot>): seq<Slot>
  {
    Remove(Remove(slots, "results"), "page")
  }

  /** `cancel` forgets the search results and the page and nothing else. */
  lemma CancelForgetsSearch(slots: seq<Slot>, k: string)
    requires DistinctKeys(slots)
    ensures DistinctKeys(Cancelled(slots))
    ensures Get(Cancelled(slots), k) == if k == "results" || k == "page" then None else Get(slots, k)
  {
    KeysRemove(slots, "results");
    KeysRemove(Remove(slots, "results"), "page");
    GetRemove(slots, "results", k);
    GetRemove(Remove(slots, "results"), "page", k);
  }

  /** The `cancel` branch: the two pops. */
  method HandleCancel(ud: UserData)
    requires ud.Valid()
    modifies ud
    ensures ud.Valid() && ud.slots == Cancelled(old(ud.slots))
  {
    ud.Pop("results");
    ud.Pop("page");
  }

  // ---- page_ ----

  /** `(len(results) + 4) // 5`. */
  function TotalPages(count: nat): nat
  {
    (count + 4) / 5
  }

  /** How the `page_` branch ends. */
  datatype PageOutcome =
    | PageRaised                         // `int()` raised
    | PageOutOfRange                     // outside `0 <= page < total_pages`: nothing happens
    | PageKeyboardTypeError(text: string) // page stored and text built, then `build_search_keyboard(results, page=page)` raises

  /**
   * The `page_` branch as written: the page is accepted exactly when
   * `0 <= page < (len(results)+4)//5`, and then stored; the reply is never
   * sent, because the keyboard call passes an argument the function does not take.
   */
  method HandlePage(ud: UserData, data: string) returns (o: PageOutcome)
    requires ud.Valid()
    modifies ud
    ensures ud.Valid()
    ensures var results := ResultsOf(old(ud.slots));
            var page := SecondField(data);
            (page.None? ==> o == PageRaised && ud.slots == old(ud.slots)) &&
            (page.Some? && !(0 <= page.value < TotalPages(|results|)) ==> o == PageOutOfRange && ud.slots == old(ud.slots)) &&
            (page.Some? && 0 <= page.value < TotalPages(|results|) ==>
               o == PageKeyboardTypeError(BotSearch.ResultsText(results, page.value)) &&
               ud.slots == Put(old(ud.slots), "page", PageNumber(page.value)))
  {
    var results := ResultsOf(ud.slots);
    var page := SecondField(data);
    if page.None? {
      return PageRaised;
    }
    var totalPages := TotalPages(|results|);
    if page.value < 0 || page.value >= totalPages {
      return PageOutOfRange;
    }
    ud.Set("page", PageNumber(page.value));
    var text := BotSearch.FormatResults(results, page.value);
    return PageKeyboardTypeError(text);
  }

  /**
   * The back button of the first page asks for page -1, which the bound as
   * written rejects, and which the intended bound rejects too, whatever the results.
   */
  lemma FirstPageBackRejected(results: seq<Track>)
    ensures SecondField(BotSearch.NavRow(0)[0].data) == Some(-1)
    ensures var n := TotalPages(|results|); !(0 <= -1 < n) && ShowPage(results, -1).None?
  {
    PageIndexRoundTrip(BotSearch.Back, -1);
  }

  /**
   * The bound counts five results a page while a page shows ten: with six
   * results `page_1` is accepted and its page is empty.
   */
  lemma EmptyPageAccepted(results: seq<Track>)
    requires |results| == 6
    ensures 0 <= 1 < TotalPages(|results|)
    ensures BotSearch.PageLines(results, 1) == [] && BotSearch.ResultsText(results, 1) == ""
  {
    assert PyStr.PySlice(results, 10, 20) == [];
  }

  /** The number of pages of ten. */
  function PageCount(count: nat): nat
  {
    (count + 9) / 10
  }

  /**
   * The `page_` reply as intended: pages of ten, and the keyboard built
   * from the page alone; `None` for a page outside the results.
   */
  function ShowPage(results: seq<Track>, page: int): Option<(string, seq<seq<Button>>)>
  {
    if 0 <= page < PageCount(|results|) then Some((BotSearch.ResultsText(results, page), BotSearch.BuildSearchKeyboard(page)))
    else None
  }

  /** An intended page is shown exactly when it holds at least one result, and its first line is that result's. */
  lemma ShowPageNonEmpty(results: seq<Track>, page: int)
    ensures ShowPage(results, page).Some? <==> 0 <= page && BotSearch.PageLines(results, page) != []
    ensures ShowPage(results, page).Some? ==>
              BotSearch.PageLines(results, page)[0] == BotSearch.ResultLine(page * 10 + 1, results[page * 10])
  {
    if 0 <= page {
      BotSearch.PageWindow(results, page);
      var s := PyStr.PySlice(results, page * 10, page * 10 + 10);
      if page * 10 < |results| {
        assert page < PageCount(|results|);
        assert s[0] == results[page * 10];
      } else {
        assert s == [];
        assert page >= PageCount(|results|);
      }
    }
  }

  /**
   * The `page_` branch as intended: a page that holds results is stored
   * and shown with its keyboard; any other data changes nothing.
   */
  method HandlePageIntended(ud: UserData, data: string) returns (shown: Option<(string, seq<seq<Button>>)>)
    requires ud.Valid()
    modifies ud
    ensures ud.Valid()
    ensures var page := SecondField(data);
            (page.None? ==> shown.None? && ud.slots == old(ud.slots)) &&
            (page.Some? ==> shown == ShowPage(ResultsOf(old(ud.slots)), page.value) &&
                            ud.slots == if shown.Some? then Put(old(ud.slots), "page", PageNumber(page.value)) else old(ud.slots))
  {
    var results := ResultsOf(ud.slots);
    var page := SecondField(data);
    if page.None? {
      return None;
    }
    shown := ShowPage(results, page.value);
    if shown.Some? {
      ud.Set("page", PageNumber(page.value));
    }
  }

  // ---- select_ ----

  /** `track.get('url')`, replaced by the watch link when it does not start with `http`. */
  function SelectedUrl(t: Track): (url: string)
    ensures PyStr.StartsWith(url, "http")
  {
    if PyStr.StartsWith(t.url, "http") then t.url
    else
      var w := WatchUrl(t.IdOr(""));
      assert w[..4] == "http";
      w
  }

  const SelectExtensions := ["mp3", "m4a", "webm", "ogg", "opus", "wav"]

  /** The first try: best audio converted to 192 kbit/s mp3, written to `{output_path}.%(ext)s`. */
  function SelectAudioOptions(outputPath: string): Media.DownloadOptions
  {
    Media.DownloadOptions(Media.BestAudio, outputPath + Media.ExtTemplate, None, Some(Media.Mp3At192), true)
  }

  /** The fallback: the same without the conversion. */
  function SelectFallbackOptions(outputPath: string): Media.DownloadOptions
  {
    Media.DownloadOptions(Media.BestAudio, outputPath + Media.ExtTemplate, None, None, true)
  }

  /** `os.path.join(DOWNLOADS_DIR, f'{video_id}_audio')`. */
  function SelectOutputPath(dir: string, videoId: string): string
  {
    dir + "/" + videoId + "_audio"
  }

  /** The first `{output_path}.{ext}` that exists. */
  function FirstAppended(outputPath: string, exts: seq<string>, isFile: string -> bool): (r: Option<string>)
    ensures r.Some? ==> exists k :: 0 <= k < |exts| && r.value == outputPath + "." + exts[k] && isFile(r.value) &&
                          forall j :: 0 <= j < k ==> !isFile(outputPath + "." + exts[j])
    ensures r.None? ==> forall k :: 0 <= k < |exts| ==> !isFile(outputPath + "." + exts[k])
  {
    if exts == [] then None
    else if isFile(outputPath + "." + exts[0]) then Some(outputPath + "." + exts[0])
    else
      var r := FirstAppended(outputPath, exts[1..], isFile);
      assert forall k :: 1 <= k < |exts| ==> exts[k] == exts[1..][k - 1];
      r
  }

  /**
   * `_download_youtube_audio(url, video_id)`: `None` when both tries raise,
   * otherwise the first of the six extensions that exists.
   */
  function SelectAudio(url: string, videoId: string, dir: string,
                       run: (Media.DownloadOptions, string) -> bool, isFile: string -> bool): (r: Option<string>)
    ensures var out := SelectOutputPath(dir, videoId);
            r.Some? ==> r.value != "" && (run(SelectAudioOptions(out), url) || run(SelectFallbackOptions(out), url)) &&
                        isFile(r.value) &&
                        exists k :: 0 <= k < |SelectExtensions| && r.value == out + "." + SelectExtensions[k] &&
                                    forall j :: 0 <= j < k ==> !isFile(out + "." + SelectExtensions[j])
    ensures var out := SelectOutputPath(dir, videoId);
            r.None? <==> (!run(SelectAudioOptions(out), url) && !run(SelectFallbackOptions(out), url)) ||
                         forall k :: 0 <= k < |SelectExtensions| ==> !isFile(out + "." + SelectExtensions[k])
  {
    var out := SelectOutputPath(dir, videoId);
    if !run(SelectAudioOptions(out), url) && !run(SelectFallbackOptions(out), url) then None
    else FirstAppended(out, SelectExtensions, isFile)
  }

  /** The download and probe loop, proved to compute `SelectAudio`. */
  method DownloadSelectAudio(url: string, videoId: string, dir: string,
                             run: (Media.DownloadOptions, string) -> bool, isFile: string -> bool)
    returns (r: Option<string>)
    ensures r == SelectAudio(url, videoId, dir, run, isFile)
  {
    var outputPath := SelectOutputPath(dir, videoId);
    if !run(SelectAudioOptions(outputPath), url) {
      if !run(SelectFallbackOptions(outputPath), url) {
        return None;
      }
    }
    var exts := SelectExtensions;
    var i := 0;
    while i < |exts|
      invariant 0 <= i <= |exts|
      invariant FirstAppended(outputPath, exts[i..], isFile) == FirstAppended(outputPath, exts, isFile)
    {
      var p := outputPath + "." + exts[i];
      assert exts[i..][0] == exts[i] && exts[i..][1..] == exts[i + 1..];
      if isFile(p) {
        return Some(p);
      }
      i := i + 1;
    }
    return None;
  }

  /** Telegram's upload limit: 50 MB. */
  const SizeLimit := 50 * 1024 * 1024

  /** A `DownloadHistory` row the callback handlers create. */
  datatype HistoryEntry = HistoryEntry(videoUrl: string, videoTitle: string, platform: string, formatLabel: string,
                                       status: BotDownload.Status, fileSize: int)

  /** How the `select_` branch ends. */
  datatype SelectOutcome =
    | SelectRaised                                   // `int()` raised
    | SelectNotFound                                 // index out of range
    | SelectNoUrl                                    // the track has no url
    | SelectFailed(title: string)                    // no file came back
    | SelectTooLarge(title: string, megabytes: int)  // over the limit: not sent
    | SelectSent(title: string, performer: string)
    | SelectSendFailed(title: string)                // `reply_audio` raised

  /**
   * The `select_` branch: an index outside the results or a track without a
   * url ends with an error reply and no download; otherwise the track's audio
   * is downloaded, logged as a completed download when the user is known, and
   * sent unless it is over 50 MB.
   */
  method HandleSelect(ud: UserData, data: string, dir: string, hasUser: bool,
                      run: (Media.DownloadOptions, string) -> bool, isFile: string -> bool,
                      sizeOf: string -> int, sendOk: bool)
    returns (o: SelectOutcome, history: Option<HistoryEntry>)
    ensures var results := ResultsOf(ud.slots);
            var index := SecondField(data);
            (index.None? ==> o == SelectRaised && history.None?) &&
            (index.Some? && !(0 <= index.value < |results|) ==> o == SelectNotFound && history.None?) &&
            (index.Some? && 0 <= index.value < |results| ==>
               var t := results[index.value];
               (t.url == "" ==> o == SelectNoUrl && history.None?) &&
               (t.url != "" ==>
                  var file := SelectAudio(SelectedUrl(t), t.IdOr(""), dir, run, isFile);
                  (file.None? ==> o == SelectFailed(t.title) && history.None?) &&
                  (file.Some? ==>
                     history == (if hasUser then Some(HistoryEntry(SelectedUrl(t), t.title, "youtube", "Audio",
                                                                   BotDownload.Completed, sizeOf(file.value)))
                                 else None) &&
                     o == (if sizeOf(file.value) > SizeLimit then SelectTooLarge(t.title, sizeOf(file.value) / (1024 * 1024))
                           else if sendOk then SelectSent(t.title, t.ArtistOr(""))
                           else SelectSendFailed(t.title)))))
  {
    var results := ResultsOf(ud.slots);
    var index := SecondField(data);
    if index.None? {
      return SelectRaised, None;
    }
    if index.value < 0 || index.value >= |results| {
      return SelectNotFound, None;
    }
    var track := results[index.value];
    var title := track.title;
    var url := track.url;
    var videoId := track.IdOr("");
    if url == "" {
      return SelectNoUrl, None;
    }
    if !PyStr.StartsWith(url, "http") {
      url := WatchUrl(videoId);
    }
    var filePath := DownloadSelectAudio(url, videoId, dir, run, isFile);
    if filePath.Some? && filePath.value != "" && isFile(filePath.value) {
      history := None;
      if hasUser {
        history := Some(HistoryEntry(url, title, "youtube", "Audio", BotDownload.Completed, sizeOf(filePath.value)));
      }
      var fileSize := sizeOf(filePath.value);
      if fileSize > SizeLimit {
        o := SelectTooLarge(title, fileSize / (1024 * 1024));
      } else if sendOk {
        o := SelectSent(title, track.ArtistOr(""));
      } else {
        o := SelectSendFailed(title);
      }
    } else {
      return SelectFailed(title), None;
    }
  }

  // ---- ytdl_ ----

  /** `data.split('_', 2)`, then parts 1 and 2; `None` where Python raises. */
  function SplitYtdl(data: string): (r: Option<(string, string)>)
    ensures r.Some? ==> '_' !in r.value.0
  {
    var parts := PyStr.SplitMax(data, '_', 2);
    PyStr.SplitMaxPartsFree(data, '_', 2);
    if |parts| < 3 then None else Some((parts[1], parts[2]))
  }

  /** As written, the quality button's data decodes to its id and height exactly when the id holds no `_`. */
  lemma SplitYtdlRecoversIff(id: string, q: string)
    ensures SplitYtdl("ytdl_" + id + "_" + q) == Some((id, q)) <==> '_' !in id
  {
    var rest := id + "_" + q;
    assert "ytdl_" + id + "_" + q == "ytdl" + ['_'] + rest;
    PyStr.SplitMaxCons("ytdl", '_', rest, 2);
    if '_' !in id {
      assert rest == id + ['_'] + q;
      PyStr.SplitMaxCons(id, '_', q, 1);
    } else {
      var k := PyStr.IndexOf(rest, '_');
      var j :| 0 <= j < |id| && id[j] == '_';
      assert rest[j] == '_';
      assert k < |id|;
      var parts := PyStr.SplitMax(rest, '_', 1);
      assert parts[0] == rest[..k];
    }
  }

  /** A YouTube id with an `_` is cut at it: `ytdl_a_b_720` decodes to id `a` and quality `b_720`. */
  lemma SplitYtdlCutsId()
    ensures SplitYtdl("ytdl_a_b_720") == Some(("a", "b_720"))
  {
    assert "ytdl_a_b_720" == "ytdl" + ['_'] + ("a" + ['_'] + "b_720");
    PyStr.SplitMaxCons("ytdl", '_', "a" + ['_'] + "b_720", 2);
    PyStr.SplitMaxCons("a", '_', "b_720", 1);
  }

  /** The decoding intended: drop `ytdl_` and split at the last `_`, since the quality never holds one. */
  function DecodeYtdl(data: string): (r: Option<(string, string)>)
    ensures r.Some? ==> data == "ytdl_" + r.value.0 + "_" + r.value.1 && '_' !in r.value.1
    ensures PyStr.StartsWith(data, "ytdl_") && '_' in data[5..] ==> r.Some?
  {
    if !PyStr.StartsWith(data, "ytdl_") then None
    else
      var parts := PyStr.RSplitOnce(data[5..], '_');
      if |parts| < 2 then None else Some((parts[0], parts[1]))
  }

  /** Decoding recovers every id, `_` or not, and the quality, when the quality holds no `_`. */
  lemma DecodeYtdlRoundTrip(id: string, q: string)
    requires '_' !in q
    ensures DecodeYtdl("ytdl_" + id + "_" + q) == Some((id, q))
  {
    var data := "ytdl_" + id + "_" + q;
    assert data[..5] == "ytdl_";
    var rest := data[5..];
    assert rest == id + "_" + q;
    var k := PyStr.LastIndexOf(rest, '_');
    assert rest[|id|] == '_';
    assert forall j :: |id| < j < |rest| ==> rest[j] == q[j - |id| - 1];
    assert k == |id|;
    assert rest[..k] == id && rest[k + 1..] == q;
  }

  /** `f'{quality}p'`, or `Audio` for `audio`. */
  function Label(quality: string): (l: string)
    ensures l == "Audio" <==> quality == "audio"
  {
    if quality != "audio" then
      var l := quality + "p";
      assert l[|l| - 1] == 'p';
      l
    else "Audio"
  }

  /** A `video_id_{h}` key whose value is the id. */
  predicate VideoIdMatches(slots: seq<Slot>, key: string, id: string)
  {
    PyStr.StartsWith(key, "video_id_") && Get(slots, key) == Some(Text(id))
  }

  /** The first `video_id_{h}` key, in insertion order, whose value is the id; its `h` by `key.replace('video_id_', '')`. */
  function ScanVideoIds(slots: seq<Slot>, ks: seq<string>, id: string): (h: Option<string>)
    ensures h.Some? ==> exists i :: 0 <= i < |ks| && VideoIdMatches(slots, ks[i], id) &&
                          h.value == PyStr.ReplaceAll(ks[i], "video_id_", "")
  {
    if ks == [] then None
    else if VideoIdMatches(slots, ks[0], id) then
      Some(PyStr.ReplaceAll(ks[0], "video_id_", ""))
    else
      var h := ScanVideoIds(slots, ks[1..], id);
      assert h.Some? ==> exists i :: 1 <= i < |ks| && ks[i] == ks[1..][i - 1] && VideoIdMatches(slots, ks[i], id) &&
                          h.value == PyStr.ReplaceAll(ks[i], "video_id_", "");
      h
  }

  /**
   * The scan finds the FIRST key that holds the id, every earlier one
   * declining, and finds nothing exactly when no key holds it.
   */
  lemma {:induction false} ScanVideoIdsFirst(slots: seq<Slot>, ks: seq<string>, id: string)
    ensures var h := ScanVideoIds(slots, ks, id);
            (h.None? <==> forall i :: 0 <= i < |ks| ==> !VideoIdMatches(slots, ks[i], id)) &&
            (h.Some? ==> exists i :: 0 <= i < |ks| && VideoIdMatches(slots, ks[i], id) &&
                           h.value == PyStr.ReplaceAll(ks[i], "video_id_", "") &&
                           forall j :: 0 <= j < i ==> !VideoIdMatches(slots, ks[j], id))
  {
    if ks != [] && !VideoIdMatches(slots, ks[0], id) {
      ScanVideoIdsFirst(slots, ks[1..], id);
      var h := ScanVideoIds(slots, ks[1..], id);
      assert forall i :: 1 <= i < |ks| ==> ks[i] == ks[1..][i - 1];
      if h.Some? {
        var i :| 0 <= i < |ks[1..]| && VideoIdMatches(slots, ks[1..][i], id) &&
                 h.value == PyStr.ReplaceAll(ks[1..][i], "video_id_", "") &&
                 forall j :: 0 <= j < i ==> !VideoIdMatches(slots, ks[1..][j], id);
        assert forall j :: 0 <= j < i + 1 ==> !VideoIdMatches(slots, ks[j], id) by {
          forall j | 0 < j < i + 1 ensures !VideoIdMatches(slots, ks[j], id) {
            assert ks[j] == ks[1..][j - 1];
          }
        }
      }
    }
  }

  /** The hash of an `info_{h}` key with a stored info and a truthy `url_{h}`, when the info's id cut to 20 characters is the id. */
  predicate InfoMatches(slots: seq<Slot>, key: string, id: string)
  {
    PyStr.StartsWith(key, "info_") &&
    var h := PyStr.ReplaceAll(key, "info_", "");
    var info := BotDownload.InfoAt(slots, key);
    info.Some? && BotDownload.UrlFor(slots, h).Some? && PyStr.Take(info.value.id, BotDownload.VideoIdLength) == id
  }

  /** The fallback scan: the first `info_` key that matches. */
  function ScanInfos(slots: seq<Slot>, ks: seq<string>, id: string): (k: Option<string>)
    ensures k.Some? ==> k.value in ks && InfoMatches(slots, k.value, id)
  {
    if ks == [] then None
    else if InfoMatches(slots, ks[0], id) then Some(ks[0])
    else ScanInfos(slots, ks[1..], id)
  }

  /**
   * The fallback scan finds the FIRST matching `info_` key, every earlier
   * one declining, and finds nothing exactly when no key matches.
   */
  lemma {:induction false} ScanInfosFirst(slots: seq<Slot>, ks: seq<string>, id: string)
    ensures var k := ScanInfos(slots, ks, id);
            (k.None? <==> forall i :: 0 <= i < |ks| ==> !InfoMatches(slots, ks[i], id)) &&
            (k.Some? ==> exists i :: 0 <= i < |ks| && ks[i] == k.value && InfoMatches(slots, ks[i], id) &&
                           forall j :: 0 <= j < i ==> !InfoMatches(slots, ks[j], id))
  {
    if ks != [] && !InfoMatches(slots, ks[0], id) {
      ScanInfosFirst(slots, ks[1..], id);
      var k := ScanInfos(slots, ks[1..], id);
      assert forall i :: 1 <= i < |ks| ==> ks[i] == ks[1..][i - 1];
      if k.Some? {
        var i :| 0 <= i < |ks[1..]| && ks[1..][i] == k.value && InfoMatches(slots, ks[1..][i], id) &&
                 forall j :: 0 <= j < i ==> !InfoMatches(slots, ks[1..][j], id);
        assert forall j :: 0 <= j < i + 1 ==> !InfoMatches(slots, ks[j], id) by {
          forall j | 0 < j < i + 1 ensures !InfoMatches(slots, ks[j], id) {
            assert ks[j] == ks[1..][j - 1];
          }
        }
      }
    }
  }

  /** A stored link: its hash, its url, and the key its info is stored under. */
  datatype Found = Found(hash: string, url: string, infoKey: string, info: Media.MediaInfo)

  /**
   * The link a `ytdl_` callback resolves to: the first `video_id_` key
   * holding the id, when its url and info are both there; otherwise the
   * first `info_` key whose info has the id; otherwise none.
   */
  function Resolve(slots: seq<Slot>, id: string): (r: Option<Found>)
    ensures r.Some? ==> BotDownload.UrlFor(slots, r.value.hash) == Some(r.value.url) &&
                        BotDownload.InfoAt(slots, r.value.infoKey) == Some(r.value.info)
  {
    var h1 := ScanVideoIds(slots, Keys(slots), id);
    if h1.Some? && BotDownload.UrlFor(slots, h1.value).Some? && BotDownload.InfoAt(slots, "info_" + h1.value).Some? then
      Some(Found(h1.value, BotDownload.UrlFor(slots, h1.value).value, "info_" + h1.value,
                 BotDownload.InfoAt(slots, "info_" + h1.value).value))
    else
      var k2 := ScanInfos(slots, Keys(slots), id);
      if k2.Some? then
        var h := PyStr.ReplaceAll(k2.value, "info_", "");
        Some(Found(h, BotDownload.UrlFor(slots, h).value, k2.value, BotDownload.InfoAt(slots, k2.value).value))
      else None
  }

  /**
   * A resolved link is stored: its url is there and truthy, its info is
   * under its info key, and it was found by the id's `video_id_` key or by
   * an info whose id, cut to 20 characters, is the id.
   */
  lemma ResolvedLinkStored(slots: seq<Slot>, id: string)
    ensures var f := Resolve(slots, id);
            f.Some? ==> BotDownload.UrlFor(slots, f.value.hash) == Some(f.value.url) &&
                        BotDownload.InfoAt(slots, f.value.infoKey) == Some(f.value.info) &&
                        ((ScanVideoIds(slots, Keys(slots), id) == Some(f.value.hash) && f.value.infoKey == "info_" + f.value.hash) ||
                         PyStr.Take(f.value.info.id, BotDownload.VideoIdLength) == id)
  {
    var h1 := ScanVideoIds(slots, Keys(slots), id);
    if !(h1.Some? && BotDownload.UrlFor(slots, h1.value).Some? && BotDownload.InfoAt(slots, "info_" + h1.value).Some?) {
      var k2 := ScanInfos(slots, Keys(slots), id);
      if k2.Some? {
        assert InfoMatches(slots, k2.value, id);
      }
    }
  }

  /** No `info_` key of the session matches the id. */
  predicate NoInfoMatch(slots: seq<Slot>, id: string)
  {
    forall i :: 0 <= i < |slots| ==> !InfoMatches(slots, slots[i].key, id)
  }

  /** Slot `i` holds the first `video_id_` key whose value is the id. */
  predicate FirstVideoIdKey(slots: seq<Slot>, i: int, id: string)
  {
    0 <= i < |slots| && VideoIdMatches(slots, slots[i].key, id) &&
    forall j :: 0 <= j < i ==> !VideoIdMatches(slots, slots[j].key, id)
  }

  /** Both the url and the info of hash `h` are there (`if not info or not url` fails). */
  predicate LinkComplete(slots: seq<Slot>, h: string)
  {
    BotDownload.UrlFor(slots, h).Some? && BotDownload.InfoAt(slots, "info_" + h).Some?
  }

  /** The first `video_id_` key holding the id, if any, lacks its url or its info. */
  predicate FirstVideoIdIncomplete(slots: seq<Slot>, id: string)
  {
    forall i :: 0 <= i < |slots| && FirstVideoIdKey(slots, i, id) ==> !LinkComplete(slots, PyStr.ReplaceAll(slots[i].key, "video_id_", ""))
  }

  lemma NoInfoMatchIff(slots: seq<Slot>, id: string)
    ensures ScanInfos(slots, Keys(slots), id).None? <==> NoInfoMatch(slots, id)
  {
    ScanInfosFirst(slots, Keys(slots), id);
  }

  lemma FirstVideoIdIncompleteIff(slots: seq<Slot>, id: string)
    ensures var h1 := ScanVideoIds(slots, Keys(slots), id);
            FirstVideoIdIncomplete(slots, id) <==> h1.None? || !LinkComplete(slots, h1.value)
  {
    var ks := Keys(slots);
    ScanVideoIdsFirst(slots, ks, id);
    var h1 := ScanVideoIds(slots, ks, id);
    if h1.Some? {
      var i :| 0 <= i < |ks| && VideoIdMatches(slots, ks[i], id) &&
               h1.value == PyStr.ReplaceAll(ks[i], "video_id_", "") &&
               forall j :: 0 <= j < i ==> !VideoIdMatches(slots, ks[j], id);
      assert ks[i] == slots[i].key;
      assert forall j :: 0 <= j < i ==> ks[j] == slots[j].key;
      IncompleteAt(slots, i, id);
    } else {
      assert forall j :: 0 <= j < |slots| ==> ks[j] == slots[j].key;
      IncompleteWithoutKey(slots, id);
    }
  }

  /** With a first `video_id_` key at slot `i`, the predicate is about that key's link alone. */
  lemma IncompleteAt(slots: seq<Slot>, i: int, id: string)
    requires FirstVideoIdKey(slots, i, id)
    ensures FirstVideoIdIncomplete(slots, id) <==> !LinkComplete(slots, PyStr.ReplaceAll(slots[i].key, "video_id_", ""))
  {
    forall i' | 0 <= i' < |slots| && FirstVideoIdKey(slots, i', id) ensures i' == i {
      FirstVideoIdKeyUnique(slots, i, i', id);
    }
  }

  /** With no `video_id_` key holding the id, the predicate holds vacuously. */
  lemma IncompleteWithoutKey(slots: seq<Slot>, id: string)
    requires forall j :: 0 <= j < |slots| ==> !VideoIdMatches(slots, slots[j].key, id)
    ensures FirstVideoIdIncomplete(slots, id)
  {
  }

  /** At most one slot holds the first `video_id_` key of an id. */
  lemma FirstVideoIdKeyUnique(slots: seq<Slot>, i: int, i': int, id: string)
    requires FirstVideoIdKey(slots, i, id) && FirstVideoIdKey(slots, i', id)
    ensures i == i'
  {
  }

  /**
   * No link is found exactly when no `info_` key matches and either no
   * `video_id_` key holds the id or the first one that does lacks its url
   * or its info.
   */
  lemma ResolveNoneIff(slots: seq<Slot>, id: string)
    ensures Resolve(slots, id).None? <==> NoInfoMatch(slots, id) && FirstVideoIdIncomplete(slots, id)
  {
    NoInfoMatchIff(slots, id);
    FirstVideoIdIncompleteIff(slots, id);
  }

  /**
   * A link `handle_download_request` stored, on any platform, is found
   * again by the id its quality buttons carry, whatever the session held before.
   */
  lemma StoredLinkResolves(slots: seq<Slot>, url: string, platform: string, info: Media.MediaInfo, h: string)
    requires url != "" && '_' !in h
    ensures Resolve(BotDownload.StoredSlots(slots, url, platform, info, h), PyStr.Take(info.id, BotDownload.VideoIdLength)).Some?
  {
    var s := BotDownload.StoredSlots(slots, url, platform, info, h);
    var id := PyStr.Take(info.id, BotDownload.VideoIdLength);
    BotDownload.StoredLookup(slots, url, platform, info, h, "info_" + h);
    BotDownload.StoredLookup(slots, url, platform, info, h, "url_" + h);
    PyStr.ReplaceAllTag("info_", h);
    assert PyStr.StartsWith("info_" + h, "info_");
    assert InfoMatches(s, "info_" + h, id);
    var ks := Keys(s);
    assert "info_" + h in ks;
    var i :| 0 <= i < |ks| && ks[i] == "info_" + h;
    ScanInfosFirst(s, ks, id);
  }

  /** `(id + "_" + q).split('_', 1)` cuts an id holding `_` short. */
  lemma SplitOnceShortens(id: string, q: string)
    requires '_' in id
    ensures var parts := PyStr.SplitMax(id + "_" + q, '_', 1);
            |parts| == 2 && |parts[0]| < |id|
  {
    var rest := id + "_" + q;
    var k := PyStr.IndexOf(rest, '_');
    var j :| 0 <= j < |id| && id[j] == '_';
    assert rest[j] == '_';
    assert k < |id|;
  }

  /** As written, an id holding `_` decodes to a strictly shorter id: the part before its first `_`. */
  lemma SplitYtdlShortens(id: string, q: string)
    requires '_' in id
    ensures SplitYtdl("ytdl_" + id + "_" + q).Some? && |SplitYtdl("ytdl_" + id + "_" + q).value.0| < |id|
  {
    var rest := id + "_" + q;
    assert "ytdl_" + id + "_" + q == "ytdl" + ['_'] + rest;
    PyStr.SplitMaxCons("ytdl", '_', rest, 2);
    SplitOnceShortens(id, q);
  }

  /** The session right after one YouTube link: its four keys, in the order `handle_download_request` writes them. */
  lemma StoredAlone(url: string, info: Media.MediaInfo, h: string)
    ensures BotDownload.StoredSlots([], url, "youtube", info, h) ==
            [Slot("url_" + h, Text(url)), Slot("platform_" + h, Text("youtube")),
             Slot("info_" + h, InfoDict(info)), Slot("video_id_" + h, Text(PyStr.Take(info.id, BotDownload.VideoIdLength)))]
  {
    var s1 := Put([], "url_" + h, Text(url));
    PutAbsent([], "url_" + h, Text(url));
    assert "platform_" + h !in Keys(s1) by { assert ("url_" + h)[0] != ("platform_" + h)[0]; }
    PutAbsent(s1, "platform_" + h, Text("youtube"));
    var s2 := Put(s1, "platform_" + h, Text("youtube"));
    assert "info_" + h !in Keys(s2) by {
      assert ("url_" + h)[0] != ("info_" + h)[0] && ("platform_" + h)[0] != ("info_" + h)[0];
    }
    PutAbsent(s2, "info_" + h, InfoDict(info));
    var s3 := Put(s2, "info_" + h, InfoDict(info));
    assert "video_id_" + h !in Keys(s3) by {
      assert ("url_" + h)[0] != ("video_id_" + h)[0] && ("platform_" + h)[0] != ("video_id_" + h)[0] &&
             ("info_" + h)[0] != ("video_id_" + h)[0];
    }
    PutAbsent(s3, "video_id_" + h, Text(PyStr.Take(info.id, BotDownload.VideoIdLength)));
  }

  /** A session holding one YouTube link finds nothing for any id other than that link's. */
  lemma StoredAloneMisses(url: string, info: Media.MediaInfo, h: string, other: string)
    requires other != PyStr.Take(info.id, BotDownload.VideoIdLength)
    ensures Resolve(BotDownload.StoredSlots([], url, "youtube", info, h), other).None?
  {
    var slots := BotDownload.StoredSlots([], url, "youtube", info, h);
    StoredAlone(url, info, h);
    assert DistinctKeys(slots) by {
      assert slots[0].key[0] == 'u' && slots[1].key[0] == 'p' && slots[2].key[0] == 'i' && slots[3].key[0] == 'v';
    }
    PyStr.StartsWithHead(slots[0].key, "video_id_");
    PyStr.StartsWithHead(slots[1].key, "video_id_");
    forall i | 0 <= i < |slots| ensures !VideoIdMatches(slots, slots[i].key, other) && !InfoMatches(slots, slots[i].key, other) {
      GetAt(slots, i);
    }
    ResolveNoneIff(slots, other);
  }

  /**
   * As written, a YouTube link whose 20-character id holds `_` is never
   * found from its own quality buttons; the intended decoding always finds it.
   */
  lemma UnderscoreIdNeverFound(url: string, info: Media.MediaInfo, h: string, q: string)
    requires url != "" && '_' !in h && '_' !in q
    requires '_' in PyStr.Take(info.id, BotDownload.VideoIdLength)
    ensures var id := PyStr.Take(info.id, BotDownload.VideoIdLength);
            var slots := BotDownload.StoredSlots([], url, "youtube", info, h);
            var data := "ytdl_" + id + "_" + q;
            SplitYtdl(data).Some? && Resolve(slots, SplitYtdl(data).value.0).None? &&
            DecodeYtdl(data) == Some((id, q)) && Resolve(slots, id).Some?
  {
    var id := PyStr.Take(info.id, BotDownload.VideoIdLength);
    var data := "ytdl_" + id + "_" + q;
    SplitYtdlShortens(id, q);
    DecodeYtdlRoundTrip(id, q);
    StoredLinkResolves([], url, "youtube", info, h);
    StoredAloneMisses(url, info, h, SplitYtdl(data).value.0);
  }

  /** The first scan, over `list(context.user_data.keys())`, stopping at the first `video_id_` key holding the id. */
  method FindByVideoId(ud: UserData, keys: seq<string>, callbackVideoId: string)
    returns (urlHash: Option<string>, url: Option<string>, info: Option<Media.MediaInfo>)
    ensures urlHash == ScanVideoIds(ud.slots, keys, callbackVideoId)
    ensures urlHash.None? ==> url.None? && info.None?
    ensures urlHash.Some? ==> url == BotDownload.TextAt(ud.slots, "url_" + urlHash.value) &&
                              info == BotDownload.InfoAt(ud.slots, "info_" + urlHash.value)
  {
    urlHash, url, info := None, None, None;
    var i := 0;
    while i < |keys|
      invariant 0 <= i <= |keys|
      invariant ScanVideoIds(ud.slots, keys[i..], callbackVideoId) == ScanVideoIds(ud.slots, keys, callbackVideoId)
    {
      var key := keys[i];
      assert keys[i..][0] == key && keys[i..][1..] == keys[i + 1..];
      if PyStr.StartsWith(key, "video_id_") {
        var storedHash := PyStr.ReplaceAll(key, "video_id_", "");
        var storedVideoId := ud.Lookup(key);
        if storedVideoId == Some(Text(callbackVideoId)) {
          urlHash := Some(storedHash);
          url := BotDownload.TextAt(ud.slots, "url_" + storedHash);
          info := BotDownload.InfoAt(ud.slots, "info_" + storedHash);
          return;
        }
      }
      i := i + 1;
    }
  }

  /** The fallback scan, stopping at the first `info_` key whose info and url are there and whose id matches. */
  method FindByInfo(ud: UserData, keys: seq<string>, callbackVideoId: string)
    returns (urlHash: Option<string>, url: Option<string>, info: Option<Media.MediaInfo>)
    ensures var k := ScanInfos(ud.slots, keys, callbackVideoId);
            (k.None? ==> urlHash.None? && url.None? && info.None?) &&
            (k.Some? ==> urlHash == Some(PyStr.ReplaceAll(k.value, "info_", "")) &&
                         url == BotDownload.UrlFor(ud.slots, urlHash.value) &&
                         info == BotDownload.InfoAt(ud.slots, k.value))
  {
    urlHash, url, info := None, None, None;
    var i := 0;
    while i < |keys|
      invariant 0 <= i <= |keys|
      invariant ScanInfos(ud.slots, keys[i..], callbackVideoId) == ScanInfos(ud.slots, keys, callbackVideoId)
    {
      var key := keys[i];
      assert keys[i..][0] == key && keys[i..][1..] == keys[i + 1..];
      if PyStr.StartsWith(key, "info_") {
        var storedHash := PyStr.ReplaceAll(key, "info_", "");
        var storedInfo := BotDownload.InfoAt(ud.slots, key);
        var storedUrl := BotDownload.TextAt(ud.slots, "url_" + storedHash);
        if storedInfo.Some? && storedUrl.Some? && storedUrl.value != "" {
          var storedVideoId := PyStr.Take(storedInfo.value.id, BotDownload.VideoIdLength);
          if storedVideoId == callbackVideoId {
            assert InfoMatches(ud.slots, key, callbackVideoId);
            return Some(storedHash), storedUrl, storedInfo;
          }
        }
      }
      assert !InfoMatches(ud.slots, key, callbackVideoId);
      i := i + 1;
    }
  }

  /** How the `ytdl_` branch ends. */
  datatype YtdlOutcome =
    | YtdlRaised                                        // the data does not decode
    | InfoMissing                                       // no stored link for the id
    | NoDownloader(formatLabel: string)
    | YtdlFailed(formatLabel: string)                   // no file came back
    | YtdlSent(title: string, formatLabel: string, asAudio: bool)
    | YtdlSendFailed(formatLabel: string)               // the user lookup, the log or the send raised

  /** `os.path.join(DOWNLOADS_DIR, ...)` of the `ytdl_` branch. */
  function YtdlPath(dir: string, urlHash: string, quality: string): string
  {
    if quality != "audio" then dir + "/youtube_" + urlHash + "_" + quality + ".mp4"
    else dir + "/youtube_" + urlHash + "_audio.mp3"
  }

  /** Lines 217-247: the two scans, proved to find the link `Resolve` names. */
  method FindLink(ud: UserData, callbackVideoId: string) returns (found: Option<Found>)
    ensures found == Resolve(ud.slots, callbackVideoId)
  {
    var keys := Keys(ud.slots);
    var urlHash, url, info := FindByVideoId(ud, keys, callbackVideoId);
    if info.Some? && url.Some? && url.value != "" {
      assert BotDownload.UrlFor(ud.slots, urlHash.value) == url;
      return Some(Found(urlHash.value, url.value, "info_" + urlHash.value, info.value));
    }
    // `if not info or not url`: the fallback scan, whose hit replaces all three
    var h2, u2, i2 := FindByInfo(ud, keys, callbackVideoId);
    if h2.None? {
      return None;
    }
    var k2 := ScanInfos(ud.slots, keys, callbackVideoId);
    return Some(Found(h2.value, u2.value, k2.value, i2.value));
  }

  /**
   * Lines 249-297 once the link is found: the adapter for the url downloads
   * the asked quality (audio for `audio`), and a file that comes back is
   * logged as a completed YouTube download and sent; the user lookup, the
   * log and the send share one `try`.
   */
  predicate Delivered(o: YtdlOutcome, history: Option<HistoryEntry>, url: string, title: string, quality: string,
                      d: Factory.Detectors, dir: string, hashOf: string -> string,
                      video: (Factory.Adapter, string, string, Option<string>) -> Option<string>,
                      audio: (Factory.Adapter, string, string) -> Option<string>,
                      isFile: string -> bool, sizeOf: string -> int, hasUser: bool, sendOk: bool)
  {
    var adapter := Factory.FirstDetecting(Factory.Downloaders, url, d);
    var path := YtdlPath(dir, hashOf(url), quality);
    (adapter.None? ==> o == NoDownloader(Label(quality)) && history.None?) &&
    (adapter.Some? ==>
       var file := if quality == "audio" then audio(adapter.value, url, path)
                   else video(adapter.value, url, path, Some(quality));
       var fileOk := file.Some? && file.value != "" && isFile(file.value);
       (!fileOk ==> o == YtdlFailed(Label(quality)) && history.None?) &&
       (fileOk && !hasUser ==> o == YtdlSendFailed(Label(quality)) && history.None?) &&
       (fileOk && hasUser ==>
          history == Some(HistoryEntry(url, title, "youtube", Label(quality), BotDownload.Completed, sizeOf(file.value))) &&
          o == (if sendOk then YtdlSent(title, Label(quality), quality == "audio") else YtdlSendFailed(Label(quality)))))
  }

  /** The download and send, proved to end as `Delivered` says. */
  method DeliverYtdl(url: string, title: string, quality: string, d: Factory.Detectors, dir: string,
                     hashOf: string -> string,
                     video: (Factory.Adapter, string, string, Option<string>) -> Option<string>,
                     audio: (Factory.Adapter, string, string) -> Option<string>,
                     isFile: string -> bool, sizeOf: string -> int, hasUser: bool, sendOk: bool)
    returns (o: YtdlOutcome, history: Option<HistoryEntry>)
    ensures Delivered(o, history, url, title, quality, d, dir, hashOf, video, audio, isFile, sizeOf, hasUser, sendOk)
  {
    history := None;
    var formatLabel := Label(quality);
    var downloader := Factory.GetDownloader(url, d);
    if downloader.None? {
      return NoDownloader(formatLabel), None;
    }
    var videoIdHash := hashOf(url);
    var outputPath := YtdlPath(dir, videoIdHash, quality);
    var filePath := if quality == "audio" then audio(downloader.value, url, outputPath)
                    else video(downloader.value, url, outputPath, Some(quality));
    if filePath.Some? && filePath.value != "" && isFile(filePath.value) {
      if !hasUser {
        return YtdlSendFailed(formatLabel), None;
      }
      history := Some(HistoryEntry(url, title, "youtube", formatLabel, BotDownload.Completed, sizeOf(filePath.value)));
      if sendOk {
        o := YtdlSent(title, formatLabel, quality == "audio");
      } else {
        o := YtdlSendFailed(formatLabel);
      }
    } else {
      o := YtdlFailed(formatLabel);
    }
  }

  /**
   * How the `ytdl_` branch ends once its data is decoded (`None` where the
   * decoding raises): the stored link for the id is delivered at the quality,
   * or reported missing.
   */
  predicate YtdlAnswered(o: YtdlOutcome, history: Option<HistoryEntry>, slots: seq<Slot>, parsed: Option<(string, string)>,
                         d: Factory.Detectors, dir: string, hashOf: string -> string,
                         video: (Factory.Adapter, string, string, Option<string>) -> Option<string>,
                         audio: (Factory.Adapter, string, string) -> Option<string>,
                         isFile: string -> bool, sizeOf: string -> int, hasUser: bool, sendOk: bool)
  {
    (parsed.None? ==> o == YtdlRaised && history.None?) &&
    (parsed.Some? && Resolve(slots, parsed.value.0).None? ==> o == InfoMissing && history.None?) &&
    (parsed.Some? && Resolve(slots, parsed.value.0).Some? ==>
       var found := Resolve(slots, parsed.value.0).value;
       Delivered(o, history, found.url, found.info.title, parsed.value.1, d, dir, hashOf, video, audio,
                 isFile, sizeOf, hasUser, sendOk))
  }

  /** Lines 217-297 on decoded data: find the stored link, then download and send. */
  method AnswerYtdl(ud: UserData, parsed: Option<(string, string)>, d: Factory.Detectors, dir: string, hashOf: string -> string,
                    video: (Factory.Adapter, string, string, Option<string>) -> Option<string>,
                    audio: (Factory.Adapter, string, string) -> Option<string>,
                    isFile: string -> bool, sizeOf: string -> int, hasUser: bool, sendOk: bool)
    returns (o: YtdlOutcome, history: Option<HistoryEntry>)
    ensures YtdlAnswered(o, history, ud.slots, parsed, d, dir, hashOf, video, audio, isFile, sizeOf, hasUser, sendOk)
  {
    if parsed.None? {
      return YtdlRaised, None;
    }
    var (callbackVideoId, quality) := parsed.value;
    var found := FindLink(ud, callbackVideoId);
    if found.None? {
      return InfoMissing, None;
    }
    o, history := DeliverYtdl(found.value.url, found.value.info.title, quality, d, dir, hashOf, video, audio,
                              isFile, sizeOf, hasUser, sendOk);
  }

  /** The `ytdl_` branch as written: `data.split('_', 2)`, then the lookup, the download and the send. */
  method HandleYtdl(ud: UserData, data: string, d: Factory.Detectors, dir: string, hashOf: string -> string,
                    video: (Factory.Adapter, string, string, Option<string>) -> Option<string>,
                    audio: (Factory.Adapter, string, string) -> Option<string>,
                    isFile: string -> bool, sizeOf: string -> int, hasUser: bool, sendOk: bool)
    returns (o: YtdlOutcome, history: Option<HistoryEntry>)
    ensures YtdlAnswered(o, history, ud.slots, SplitYtdl(data), d, dir, hashOf, video, audio, isFile, sizeOf, hasUser, sendOk)
  {
    o, history := AnswerYtdl(ud, SplitYtdl(data), d, dir, hashOf, video, audio, isFile, sizeOf, hasUser, sendOk);
  }

  /** The `ytdl_` branch with the intended decoding, which keeps every id whole. */
  method HandleYtdlIntended(ud: UserData, data: string, d: Factory.Detectors, dir: string, hashOf: string -> string,
                            video: (Factory.Adapter, string, string, Option<string>) -> Option<string>,
                            audio: (Factory.Adapter, string, string) -> Option<string>,
                            isFile: string -> bool, sizeOf: string -> int, hasUser: bool, sendOk: bool)
    returns (o: YtdlOutcome, history: Option<HistoryEntry>)
    ensures YtdlAnswered(o, history, ud.slots, DecodeYtdl(data), d, dir, hashOf, video, audio, isFile, sizeOf, hasUser, sendOk)
  {
    o, history := AnswerYtdl(ud, DecodeYtdl(data), d, dir, hashOf, video, audio, isFile, sizeOf, hasUser, sendOk);
  }

  // ---- social_video_ / social_audio_ ----

  /** `data.split('_')` of a social button: its action, its platform and its url hash; fewer than four parts is bad data. */
  function ParseSocial(data: string): (r: Option<(string, string, string)>)
    ensures r.Some? ==> '_' !in r.value.0 && '_' !in r.value.1 && '_' !in r.value.2
  {
    var parts := PyStr.Split(data, '_');
    PyStr.SplitPartsFree(data, '_');
    if |parts| < 4 then None else Some((parts[1], parts[2], parts[3]))
  }

  /** `{prefix}_{platform}_{hash}` of a social button reads back when neither the platform nor the hash holds `_`. */
  lemma SocialDataRoundTrip(action: string, platform: string, urlHash: string)
    requires action == "video" || action == "audio"
    requires '_' !in platform && '_' !in urlHash
    ensures ParseSocial("social_" + action + "_" + platform + "_" + urlHash) == Some((action, platform, urlHash))
  {
    var parts := ["social", action, platform, urlHash];
    PyStr.JoinFour("_", "social", action, platform, urlHash);
    assert "_" == ['_'];
    assert '_' !in "social" && '_' !in action;
    PyStr.SplitJoin('_', parts);
    assert "social" + "_" + action + "_" + platform + "_" + urlHash == "social_" + action + "_" + platform + "_" + urlHash by {
      assert "social" + "_" == "social_";
    }
  }

  /** Both buttons of the social keyboard read back as their action, platform and hash. */
  lemma SocialRoundTrip(platform: string, urlHash: string)
    requires '_' !in platform && '_' !in urlHash
    ensures ParseSocial(BotDownload.BuildSocialKeyboard(platform, urlHash)[0][0].data) == Some(("video", platform, urlHash))
    ensures ParseSocial(BotDownload.BuildSocialKeyboard(platform, urlHash)[0][1].data) == Some(("audio", platform, urlHash))
  {
    SocialDataRoundTrip("video", platform, urlHash);
    SocialDataRoundTrip("audio", platform, urlHash);
    assert "social_" + "video" + "_" == "social_video_";
    assert "social_" + "audio" + "_" == "social_audio_";
  }

  /**
   * Lines 299-314: bad data is refused; otherwise `process_download` runs on
   * the hash with the action as the format and no quality. Its exceptions
   * are caught here and answered with an error reply.
   */
  method HandleSocial(ud: UserData, data: string, d: Factory.Detectors, hasUser: bool, dir: string,
                      hashOf: string -> string,
                      video: (Factory.Adapter, string, string, Option<string>) -> Option<string>,
                      audio: (Factory.Adapter, string, string) -> Option<string>,
                      isFile: string -> bool, delivery: BotDownload.Delivery)
    returns (o: Option<BotDownload.ProcessOutcome>, record: Option<BotDownload.DownloadRecord>)
    ensures ParseSocial(data).None? <==> o.None?
    ensures o.None? ==> record.None?
    ensures o.Some? ==>
              var (action, _, urlHash) := ParseSocial(data).value;
              var url := BotDownload.UrlFor(ud.slots, urlHash);
              var adapter := if url.Some? then Factory.FirstDetecting(Factory.Downloaders, url.value, d) else None;
              (url.None? ==> o.value == BotDownload.LinkMissing) &&
              (url.Some? && adapter.None? ==> o.value == BotDownload.PlatformUnknown) &&
              (url.Some? && adapter.Some? && (action == "video" || action == "audio") && !hasUser ==>
                 o.value == BotDownload.UserMissing) &&
              (url.Some? && adapter.Some? && action != "video" && action != "audio" ==> o.value == BotDownload.OtherFormat) &&
              (url.Some? && adapter.Some? && (action == "video" || action == "audio") && hasUser ==> o.value.Attempted?) &&
              (record.Some? <==> o.value.Attempted?) &&
              (o.value.Attempted? ==>
                 fresh(record.value) && url.Some? && record.value.videoUrl == url.value &&
                 (action == "video" || action == "audio") &&
                 record.value.formatLabel == (if action == "video" then "Video" else "Audio") &&
                 o.value.file == (if action == "video" then video(adapter.value, url.value, o.value.outputPath, None)
                                  else audio(adapter.value, url.value, o.value.outputPath)) &&
                 record.value.status == BotDownload.Lifecycle(o.value.fileOk, delivery)[|BotDownload.Lifecycle(o.value.fileOk, delivery)| - 1])
  {
    var parsed := ParseSocial(data);
    if parsed.None? {
      return None, None;
    }
    var (action, _, urlHash) := parsed.value;
    var outcome;
    outcome, record := BotDownload.ProcessDownload(ud, urlHash, action, None, d, hasUser, dir, hashOf, video, audio,
                                                   isFile, delivery);
    o := Some(outcome);
  }

  // ---- music_instagram_ ----

  /** `data.split("_", 2)[2]`: the url hash, which may itself hold `_`; fewer than three parts is bad data. */
  function MusicHash(data: string): Option<string>
  {
    var parts := PyStr.SplitMax(data, '_', 2);
    if |parts| < 3 then None else Some(parts[2])
  }

  /** Any hash, `_` or not, reads back from `music_instagram_{hash}`. */
  lemma MusicHashRoundTrip(urlHash: string)
    ensures MusicHash("music_instagram_" + urlHash) == Some(urlHash)
  {
    assert '_' !in "music" && '_' !in "instagram";
    PyStr.SplitMaxCons("instagram", '_', urlHash, 1);
    PyStr.SplitMaxCons("music", '_', "instagram" + ['_'] + urlHash, 2);
    assert PyStr.SplitMax(urlHash, '_', 0) == [urlHash];
    assert "music_instagram_" + urlHash == "music" + ['_'] + ("instagram" + ['_'] + urlHash) by {
      assert "music_instagram_" == "music" + ['_'] + "instagram" + ['_'];
    }
  }

  /** A `ShazamLog` row. */
  datatype ShazamEntry = ShazamEntry(audioFileName: string, recognizedTitle: Option<string>,
                                     recognizedArtist: Option<string>, isSuccessful: bool,
                                     errorMessage: Option<string>)

  /** Lines 348-356: what is logged for a recognition. */
  function LogEntry(filePath: string, r: Shazam.Recognition): (e: ShazamEntry)
    ensures e.audioFileName == PyStr.Basename(filePath)
    ensures e.isSuccessful <==> r.Recognized?
    ensures e.isSuccessful ==> e.recognizedTitle == Some(r.title) && e.recognizedArtist == Some(r.artist) && e.errorMessage.None?
    ensures !e.isSuccessful ==> e.recognizedTitle.None? && e.recognizedArtist.None? && e.errorMessage == Some(r.errorMessage)
  {
    match r
    case Recognized(title, artist, _, _, _, _) => ShazamEntry(PyStr.Basename(filePath), Some(title), Some(artist), true, None)
    case NotRecognized(msg) => ShazamEntry(PyStr.Basename(filePath), None, None, false, Some(msg))
  }

  /** How the `music_instagram_` branch ends. */
  datatype MusicOutcome =
    | MusicBadData
    | MusicLinkMissing
    | MusicPlatformUnknown
    | MusicDownloadFailed                        // no video came back (commonly, no ffmpeg)
    | MusicAnswered(result: Shazam.Recognition)
    | MusicRaised                                // the user lookup raised, after the recognition

  /** Line 335: the temporary video, named after the hash and the message. */
  function MusicPath(dir: string, urlHash: string, messageId: string): string
  {
    dir + "/insta_music_" + urlHash + "_" + messageId + ".mp4"
  }

  /** Lines 316-343: how far the branch gets before the recognition: an early reply, or the downloaded video. */
  datatype MusicFetch = FetchStopped(reply: MusicOutcome) | Fetched(file: string)

  function FetchMusic(slots: seq<Slot>, data: string, d: Factory.Detectors, dir: string, messageId: string,
                      video: (Factory.Adapter, string, string, Option<string>) -> Option<string>,
                      isFile: string -> bool): (f: MusicFetch)
    ensures f.FetchStopped? ==> !f.reply.MusicAnswered? && !f.reply.MusicRaised?
    ensures f.Fetched? ==> isFile(f.file) && f.file != ""
    ensures MusicHash(data).None? ==> f == FetchStopped(MusicBadData)
    ensures MusicHash(data).Some? && BotDownload.UrlFor(slots, MusicHash(data).value).None? ==> f == FetchStopped(MusicLinkMissing)
  {
    var h := MusicHash(data);
    if h.None? then FetchStopped(MusicBadData)
    else
      var url := BotDownload.UrlFor(slots, h.value);
      if url.None? then FetchStopped(MusicLinkMissing)
      else
        var adapter := Factory.FirstDetecting(Factory.Downloaders, url.value, d);
        if adapter.None? then FetchStopped(MusicPlatformUnknown)
        else
          var file := video(adapter.value, url.value, MusicPath(dir, h.value, messageId), None);
          if file.None? || file.value == "" || !isFile(file.value) then FetchStopped(MusicDownloadFailed)
          else Fetched(file.value)
  }

  /**
   * Lines 316-364: the video behind the hash is downloaded and recognised,
   * the result logged and shown. `removed` lists, in order, the files
   * deleted: the snippet the recogniser made, then the video itself, which
   * the `finally` removes whether or not the log succeeds.
   */
  method HandleMusicInstagram(ud: UserData, data: string, d: Factory.Detectors, dir: string, messageId: string,
                              service: Shazam.ShazamService,
                              video: (Factory.Adapter, string, string, Option<string>) -> Option<string>,
                              isFile: string -> bool, decoded: Option<seq<int>>, exportOk: bool,
                              tmpDir: string, pid: string, reply: Shazam.Reply, hasUser: bool)
    returns (o: MusicOutcome, log: Option<ShazamEntry>, removed: seq<string>)
    requires service.Valid()
    modifies service
    ensures service.Valid()
    ensures var f := FetchMusic(ud.slots, data, d, dir, messageId, video, isFile);
            (f.FetchStopped? ==> o == f.reply && log.None? && removed == [] && service.client == old(service.client)) &&
            (f.Fetched? ==>
               var snippet := Shazam.PrepareSnippet(f.file, isFile(f.file), decoded, exportOk, tmpDir, pid);
               var answer := Shazam.Answer(f.file, isFile, snippet, reply);
               var cleanup := Shazam.Cleanup(f.file, isFile, snippet);
               (hasUser ==> o == MusicAnswered(answer) && log == Some(LogEntry(f.file, answer))) &&
               (!hasUser ==> o == MusicRaised && log.None?) &&
               removed == (if cleanup.Some? then [cleanup.value] else []) + [f.file])
  {
    log, removed := None, [];
    var fetched := FetchMusic(ud.slots, data, d, dir, messageId, video, isFile);
    if fetched.FetchStopped? {
      return fetched.reply, None, [];
    }
    var filePath := Some(fetched.file);
    var result, snippetRemoved := service.Recognize(filePath.value, isFile, decoded, exportOk, tmpDir, pid, reply);
    if snippetRemoved.Some? {
      removed := [snippetRemoved.value];
    }
    if hasUser {
      log := Some(LogEntry(filePath.value, result));
      o := MusicAnswered(result);
    } else {
      o := MusicRaised;
    }
    removed := removed + [filePath.value];
  }
}
