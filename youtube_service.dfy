/**
 * The YouTube adapter (services/downloaders/youtube_service.py): URL
 * detection, `get_info` defaults, the quality list built from yt-dlp's
 * formats, and the download options and output probe.
 */
module YouTubeService {
  import opened Wrappers
  import PyStr
  import opened Media

  /** The heights offered as video qualities, as the strings `str(height)` is compared with. */
  const VideoQualities := ["144", "240", "360", "480", "720", "1080"]

  /** `(https?://)?(www\.)?(youtube\.com/(watch\?v=|shorts/)|youtu\.be/)[\w\-]+`, case-sensitive. */
  const Pattern := UrlPattern(["", "www."], ["youtube.com/watch?v=", "youtube.com/shorts/", "youtu.be/"], IdChars)

  predicate Detect(url: string)
  {
    Search(Pattern, url)
  }

  /** `detect` holds exactly when one of the three literals is followed by a `[\w\-]` character. */
  lemma DetectIffLiteral(url: string)
    ensures Detect(url) <==>
              exists l, i: nat | l in Pattern.literals && i <= |url| :: LiteralThenClass(url, l, i, IdChars)
  {
    SearchIffLiteral(Pattern, url);
  }

  /** `get_info`: `None` when yt-dlp raises; otherwise each key with its default. */
  function GetInfo(url: string, extract: string -> Option<RawInfo>): (r: Option<MediaInfo>)
    ensures r.Some? <==> extract(url).Some?
    ensures r.Some? ==>
              var raw := extract(url).value;
              r.value.title == raw.title.GetOr("Video") && r.value.id == raw.id.GetOr("video") &&
              r.value.channel == raw.channel.GetOr(raw.uploader.GetOr("")) &&
              r.value.formats == raw.formats.GetOr([]) && r.value.url == url
  {
    var raw := extract(url);
    if raw.None? then None
    else
      var info := raw.value;
      Some(MediaInfo(info.title.GetOr("Video"), info.channel.GetOr(info.uploader.GetOr("")),
                     info.thumbnail.GetOr(""), info.duration.GetOr(0), info.formats.GetOr([]), url,
                     info.id.GetOr("video")))
  }

  // ---- quality list ----

  /** Python's `o or d` for an optional number. */
  function OrNumber(o: Option<int>, d: int): (r: int)
    ensures o.Some? && o.value != 0 ==> r == o.value
    ensures !(o.Some? && o.value != 0) ==> r == d
  {
    if o.Some? && o.value != 0 then o.value else d
  }

  /** `f.get('filesize') or f.get('filesize_approx') or 0`. */
  function SizeOf(f: Format): int
  {
    OrNumber(f.filesize, OrNumber(f.filesizeApprox, 0))
  }

  /** A format the video loop considers: a truthy height and a video codec other than `'none'`. */
  predicate IsVideo(f: Format)
  {
    f.height.Some? && f.height.value != 0 && f.vcodec != Some("none")
  }

  /** `str(height)`. */
  function HeightLabel(f: Format): string
    requires IsVideo(f)
  {
    PyStr.IntToString(f.height.value)
  }

  /** The sort key `int(x['height'])`. */
  function HeightKey(q: Quality): int
  {
    PyStr.ParseInt(q.height).GetOr(0)
  }

  /** The entry of a video format. */
  function VideoEntry(f: Format): Quality
    requires IsVideo(f)
  {
    Quality(HeightLabel(f) + "p", HeightLabel(f), SizeOf(f))
  }

  /** A video format whose label is not yet seen and is on the list. */
  predicate Offered(f: Format, seen: set<string>)
  {
    IsVideo(f) && HeightLabel(f) !in seen && HeightLabel(f) in VideoQualities
  }

  /** The first loop: one entry per listed height, from its first video format, in format order. */
  function Collect(fs: seq<Format>, seen: set<string>): (r: seq<Quality>)
    ensures forall i :: 0 <= i < |r| ==>
              r[i].height in VideoQualities && r[i].height !in seen && r[i].text == r[i].height + "p"
    ensures forall i, j :: 0 <= i < j < |r| ==> r[i].height != r[j].height
  {
    if fs == [] then []
    else if Offered(fs[0], seen) then [VideoEntry(fs[0])] + Collect(fs[1..], seen + {HeightLabel(fs[0])})
    else Collect(fs[1..], seen)
  }

  /** Reference: the size of the first video format with the given label (0 when there is none). */
  function FirstVideoSize(fs: seq<Format>, heightLabel: string): int
  {
    if fs == [] then 0
    else if IsVideo(fs[0]) && HeightLabel(fs[0]) == heightLabel then SizeOf(fs[0])
    else FirstVideoSize(fs[1..], heightLabel)
  }

  /** Ascending by `int(height)`. */
  predicate Ascending(qs: seq<Quality>)
  {
    forall i, j :: 0 <= i < j < |qs| ==> HeightKey(qs[i]) <= HeightKey(qs[j])
  }

  predicate StrictlyAscending(qs: seq<Quality>)
  {
    forall i, j :: 0 <= i < j < |qs| ==> HeightKey(qs[i]) < HeightKey(qs[j])
  }

  predicate DistinctKeys(qs: seq<Quality>)
  {
    forall i, j :: 0 <= i < j < |qs| ==> HeightKey(qs[i]) != HeightKey(qs[j])
  }

  /** An entry with its sort key. */
  datatype Keyed = Keyed(key: int, entry: Quality)

  /** `list.sort(key=...)` computes each key once: the (key, entry) pairs. */
  function Decorate(qs: seq<Quality>): (ps: seq<Keyed>)
    ensures |ps| == |qs| && forall i :: 0 <= i < |qs| ==> ps[i] == Keyed(HeightKey(qs[i]), qs[i])
  {
    if qs == [] then [] else [Keyed(HeightKey(qs[0]), qs[0])] + Decorate(qs[1..])
  }

  function Undecorate(ps: seq<Keyed>): (qs: seq<Quality>)
    ensures |qs| == |ps| && forall i :: 0 <= i < |ps| ==> qs[i] == ps[i].entry
  {
    if ps == [] then [] else [ps[0].entry] + Undecorate(ps[1..])
  }

  predicate SortedPairs(ps: seq<Keyed>)
  {
    forall i, j :: 0 <= i < j < |ps| ==> ps[i].key <= ps[j].key
  }

  predicate StrictPairs(ps: seq<Keyed>)
  {
    forall i, j :: 0 <= i < j < |ps| ==> ps[i].key < ps[j].key
  }

  /** Inserts `p` before the first pair whose key is not smaller. */
  function InsertPair(p: Keyed, ps: seq<Keyed>): (r: seq<Keyed>)
    ensures multiset(r) == multiset(ps) + multiset{p}
    ensures |r| == |ps| + 1 && (r[0] == p || (ps != [] && r[0] == ps[0]))
  {
    if ps == [] || p.key <= ps[0].key then [p] + ps
    else
      assert ps == [ps[0]] + ps[1..];
      [ps[0]] + InsertPair(p, ps[1..])
  }

  /** Insertion into a sorted list keeps it sorted. */
  lemma {:induction false} InsertSorted(p: Keyed, ps: seq<Keyed>)
    requires SortedPairs(ps)
    ensures SortedPairs(InsertPair(p, ps))
  {
    if ps != [] && p.key > ps[0].key {
      InsertSorted(p, ps[1..]);
      var tail := InsertPair(p, ps[1..]);
      assert ps[0].key <= tail[0].key;
      assert InsertPair(p, ps) == [ps[0]] + tail;
    }
  }

  function SortPairs(ps: seq<Keyed>): (r: seq<Keyed>)
    ensures SortedPairs(r) && multiset(r) == multiset(ps) && |r| == |ps|
  {
    if ps == [] then []
    else
      assert ps == [ps[0]] + ps[1..];
      InsertSorted(ps[0], SortPairs(ps[1..]));
      InsertPair(ps[0], SortPairs(ps[1..]))
  }

  /** `available.sort(key=lambda x: int(x['height']))`, as an insertion sort on values. */
  function SortByHeight(qs: seq<Quality>): seq<Quality>
  {
    Undecorate(SortPairs(Decorate(qs)))
  }

  /** Inserting a key not yet present into a strictly ascending list keeps it strictly ascending. */
  lemma {:induction false} InsertStrict(p: Keyed, ps: seq<Keyed>)
    requires StrictPairs(ps)
    requires forall x :: x in ps ==> x.key != p.key
    ensures StrictPairs(InsertPair(p, ps))
  {
    if ps != [] && p.key > ps[0].key {
      InsertStrict(p, ps[1..]);
      var tail := InsertPair(p, ps[1..]);
      assert ps[0].key < tail[0].key;
      assert InsertPair(p, ps) == [ps[0]] + tail;
    } else if ps != [] {
      assert ps[0] in ps;
    }
  }

  /** Pairs whose keys are distinct are sorted strictly. */
  lemma {:induction false} SortStrict(ps: seq<Keyed>)
    requires forall i, j :: 0 <= i < j < |ps| ==> ps[i].key != ps[j].key
    ensures StrictPairs(SortPairs(ps))
  {
    if ps != [] {
      SortStrict(ps[1..]);
      var t := SortPairs(ps[1..]);
      forall x | x in t ensures x.key != ps[0].key {
        assert x in multiset(ps[1..]);
        var k :| 0 <= k < |ps[1..]| && ps[1..][k] == x;
        assert ps[k + 1] == x;
      }
      InsertStrict(ps[0], t);
    }
  }

  /**
   * The sort keeps exactly the entries it is given, orders them by
   * `int(height)`, and strictly so when no two entries share a key.
   */
  lemma SortByHeightSorts(qs: seq<Quality>)
    ensures var r := SortByHeight(qs);
            |r| == |qs| && (forall x :: x in r <==> x in qs) && Ascending(r) &&
            (DistinctKeys(qs) ==> StrictlyAscending(r))
  {
    var d := Decorate(qs);
    var ps := SortPairs(d);
    var r := Undecorate(ps);
    SortedEntries(qs, d, ps, r);
    EntriesKept(qs, d, ps, r);
    if DistinctKeys(qs) {
      SortStrict(d);
    }
  }

  /** Each sorted pair carries the key of its entry, which is one of the given entries. */
  lemma SortedEntries(qs: seq<Quality>, d: seq<Keyed>, ps: seq<Keyed>, r: seq<Quality>)
    requires d == Decorate(qs) && multiset(ps) == multiset(d) && r == Undecorate(ps)
    ensures forall i :: 0 <= i < |ps| ==> ps[i].key == HeightKey(r[i]) && r[i] in qs
  {
    forall i | 0 <= i < |ps| ensures ps[i].key == HeightKey(r[i]) && r[i] in qs {
      assert ps[i] in multiset(d);
      var k :| 0 <= k < |d| && d[k] == ps[i];
    }
  }

  /** Every given entry is among the sorted ones. */
  lemma EntriesKept(qs: seq<Quality>, d: seq<Keyed>, ps: seq<Keyed>, r: seq<Quality>)
    requires d == Decorate(qs) && multiset(ps) == multiset(d) && r == Undecorate(ps)
    ensures forall x :: x in qs ==> x in r
  {
    forall x | x in qs ensures x in r {
      var k :| 0 <= k < |qs| && qs[k] == x;
      assert d[k] in multiset(ps);
      var i :| 0 <= i < |ps| && ps[i] == d[k];
      assert r[i] == x;
    }
  }

  /** A listed height is read back by `int` as the number it names. */
  lemma LabelKey(q: Quality)
    requires q.height in VideoQualities
    ensures PyStr.IntToString(HeightKey(q)) == q.height
  {
    var n := ListedHeight(q.height);
    PyStr.ParseIntOfIntToString(n);
  }

  /** Each listed height is `str` of a number. */
  lemma ListedHeight(h: string) returns (n: nat)
    requires h in VideoQualities
    ensures PyStr.IntToString(n) == h
  {
    if h == "144" {
      n := 144;
      assert PyStr.NatToString(14) == "14";
    } else if h == "240" {
      n := 240;
      assert PyStr.NatToString(24) == "24";
    } else if h == "360" {
      n := 360;
      assert PyStr.NatToString(36) == "36";
    } else if h == "480" {
      n := 480;
      assert PyStr.NatToString(48) == "48";
    } else if h == "720" {
      n := 720;
      assert PyStr.NatToString(72) == "72";
    } else {
      n := 1080;
      assert PyStr.NatToString(10) == "10";
      assert PyStr.NatToString(108) == "108";
    }
  }

  /** The second loop: the size of the first audio-only format (an audio codec other than `'none'`, video codec `'none'`), else 0. */
  function AudioSize(fs: seq<Format>): int
  {
    if fs == [] then 0
    else if fs[0].acodec != Some("none") && fs[0].vcodec == Some("none") then SizeOf(fs[0])
    else AudioSize(fs[1..])
  }

  function AudioEntry(size: int): Quality
  {
    Quality("Audio", "audio", size)
  }

  /** `get_available_qualities(url)`. */
  function AvailableQualities(url: string, extract: string -> Option<RawInfo>): seq<Quality>
  {
    var info := GetInfo(url, extract);
    if info.None? then []
    else
      var fs := info.value.formats;
      SortByHeight(Collect(fs, {})) + [AudioEntry(AudioSize(fs))]
  }

  /** The loops of `get_available_qualities`, proved to compute `AvailableQualities`. */
  method GetAvailableQualities(url: string, extract: string -> Option<RawInfo>) returns (available: seq<Quality>)
    ensures available == AvailableQualities(url, extract)
  {
    var info := GetInfo(url, extract);
    if info.None? {
      return [];
    }
    var formats := info.value.formats;
    available := CollectVideoQualities(formats);
    available := SortByHeight(available);
    var audioSize := FindAudioSize(formats);
    available := available + [AudioEntry(audioSize)];
  }

  /** The first loop of `get_available_qualities`, over the formats in order. */
  method CollectVideoQualities(formats: seq<Format>) returns (available: seq<Quality>)
    ensures available == Collect(formats, {})
  {
    available := [];
    var seen: set<string> := {};
    var i := 0;
    while i < |formats|
      invariant 0 <= i <= |formats|
      invariant available + Collect(formats[i..], seen) == Collect(formats, {})
    {
      var f := formats[i];
      assert formats[i..][0] == f && formats[i..][1..] == formats[i + 1..];
      if Offered(f, seen) {
        var heightLabel := HeightLabel(f);
        assert available + Collect(formats[i..], seen)
            == (available + [VideoEntry(f)]) + Collect(formats[i + 1..], seen + {heightLabel});
        seen := seen + {heightLabel};
        available := available + [VideoEntry(f)];
      }
      i := i + 1;
    }
    assert formats[i..] == [];
    assert available + [] == available;
  }

  /** The second loop of `get_available_qualities`, stopping at the first audio-only format. */
  method FindAudioSize(formats: seq<Format>) returns (audioSize: int)
    ensures audioSize == AudioSize(formats)
  {
    audioSize := 0;
    var j := 0;
    while j < |formats|
      invariant 0 <= j <= |formats|
      invariant AudioSize(formats[j..]) == AudioSize(formats)
    {
      var f := formats[j];
      assert formats[j..][0] == f && formats[j..][1..] == formats[j + 1..];
      if f.acodec != Some("none") && f.vcodec == Some("none") {
        return SizeOf(f);
      }
      j := j + 1;
    }
    assert formats[j..] == [];
  }

  /** Each collected entry comes from the first video format with its label, whose size it keeps. */
  lemma {:induction false} CollectFirstSize(fs: seq<Format>, seen: set<string>)
    ensures forall i :: 0 <= i < |Collect(fs, seen)| ==>
              Collect(fs, seen)[i].filesize == FirstVideoSize(fs, Collect(fs, seen)[i].height)
  {
    if fs != [] {
      CollectFirstSize(fs[1..], if Offered(fs[0], seen) then seen + {HeightLabel(fs[0])} else seen);
    }
  }

  /** Every listed height that some video format has is offered. */
  lemma {:induction false} CollectComplete(fs: seq<Format>, seen: set<string>, k: nat)
    requires k < |fs| && Offered(fs[k], seen)
    ensures exists i :: 0 <= i < |Collect(fs, seen)| && Collect(fs, seen)[i].height == HeightLabel(fs[k])
  {
    var r := Collect(fs, seen);
    if Offered(fs[0], seen) {
      if HeightLabel(fs[0]) == HeightLabel(fs[k]) {
        assert r[0].height == HeightLabel(fs[k]);
      } else {
        assert fs[1..][k - 1] == fs[k];
        CollectComplete(fs[1..], seen + {HeightLabel(fs[0])}, k - 1);
        var i :| 0 <= i < |Collect(fs[1..], seen + {HeightLabel(fs[0])})| &&
                 Collect(fs[1..], seen + {HeightLabel(fs[0])})[i].height == HeightLabel(fs[k]);
        assert r[i + 1].height == HeightLabel(fs[k]);
      }
    } else {
      assert k > 0;
      assert fs[1..][k - 1] == fs[k];
      CollectComplete(fs[1..], seen, k - 1);
    }
  }

  /**
   * The video part of the list: listed heights only, labelled `{height}p`,
   * strictly ascending by number (so no height twice), each sized by the first
   * video format with that height, and every listed height of a video format present.
   */
  lemma VideoEntries(fs: seq<Format>)
    ensures var v := SortByHeight(Collect(fs, {}));
            StrictlyAscending(v) &&
            (forall i :: 0 <= i < |v| ==>
               v[i].height in VideoQualities && v[i].text == v[i].height + "p" &&
               v[i].filesize == FirstVideoSize(fs, v[i].height)) &&
            (forall k :: 0 <= k < |fs| && IsVideo(fs[k]) && HeightLabel(fs[k]) in VideoQualities ==>
               exists i :: 0 <= i < |v| && v[i].height == HeightLabel(fs[k]))
  {
    var c := Collect(fs, {});
    var v := SortByHeight(c);
    CollectFirstSize(fs, {});
    assert DistinctKeys(c) by {
      forall i, j | 0 <= i < j < |c| ensures HeightKey(c[i]) != HeightKey(c[j]) {
        LabelKey(c[i]);
        LabelKey(c[j]);
      }
    }
    SortByHeightSorts(c);
    forall i | 0 <= i < |v|
      ensures v[i].height in VideoQualities && v[i].text == v[i].height + "p" &&
              v[i].filesize == FirstVideoSize(fs, v[i].height)
    {
      assert v[i] in c;
      var j :| 0 <= j < |c| && c[j] == v[i];
    }
    forall k | 0 <= k < |fs| && IsVideo(fs[k]) && HeightLabel(fs[k]) in VideoQualities
      ensures exists i :: 0 <= i < |v| && v[i].height == HeightLabel(fs[k])
    {
      CollectComplete(fs, {}, k);
      var j :| 0 <= j < |c| && c[j].height == HeightLabel(fs[k]);
      assert c[j] in v;
      var i :| 0 <= i < |v| && v[i] == c[j];
    }
  }

  /** When `get_info` fails the list is empty; otherwise it ends with the Audio entry, sized by the first audio-only format. */
  lemma QualitiesShape(url: string, extract: string -> Option<RawInfo>)
    ensures extract(url).None? ==> AvailableQualities(url, extract) == []
    ensures extract(url).Some? ==>
              var q := AvailableQualities(url, extract);
              var fs := extract(url).value.formats.GetOr([]);
              |q| >= 1 && q[|q| - 1] == Quality("Audio", "audio", AudioSize(fs)) &&
              q[..|q| - 1] == SortByHeight(Collect(fs, {}))
  {
  }

  // ---- downloads ----

  /** The format selector: capped at the requested height unless none or `'audio'` was asked for. */
  function VideoFormat(quality: Option<string>): (r: string)
    ensures quality.Some? && quality.value != "" && quality.value != "audio" ==>
              PyStr.StartsWith(r, "best[height<=" + quality.value + "]")
    ensures !(quality.Some? && quality.value != "" && quality.value != "audio") ==> r == BestMp4
  {
    if quality.Some? && quality.value != "" && quality.value != "audio" then
      var q := quality.value;
      var r := "best[height<=" + q + "][ext=mp4]/best[height<=" + q + "]/best";
      assert r[..|"best[height<=" + q + "]"|] == "best[height<=" + q + "]";
      r
    else BestMp4
  }

  /** The video download options; the merge format is mp4 either way. */
  function VideoOptions(outputPath: string, quality: Option<string>): DownloadOptions
  {
    DownloadOptions(VideoFormat(quality), OutputTemplate(outputPath, VideoSuffix), Some("mp4"), None, true)
  }

  /** `download_video`: `None` when yt-dlp raises, else the first of `.mp4`, `.webm`, `.mkv` that exists. */
  method DownloadVideo(url: string, outputPath: string, quality: Option<string>,
                       run: (DownloadOptions, string) -> bool, isFile: string -> bool)
    returns (path: Option<string>)
    ensures path == Downloaded(VideoOptions(outputPath, quality), url, run, outputPath, VideoSuffix, VideoExtensions, isFile)
  {
    var opts := VideoOptions(outputPath, quality);
    if !run(opts, url) {
      return None;
    }
    path := ProbeExtensions(outputPath, VideoSuffix, VideoExtensions, isFile);
  }

  /** `download_audio`: `None` when yt-dlp raises, else the first of `.mp3`, `.m4a`, `.ogg` that exists. */
  method DownloadAudio(url: string, outputPath: string, run: (DownloadOptions, string) -> bool,
                       isFile: string -> bool)
    returns (path: Option<string>)
    ensures path == Downloaded(AudioOptions(outputPath, true), url, run, outputPath, AudioSuffix, AudioExtensions, isFile)
  {
    var opts := AudioOptions(outputPath, true);
    if !run(opts, url) {
      return None;
    }
    path := ProbeExtensions(outputPath, AudioSuffix, AudioExtensions, isFile);
  }
}
