/**
 * The common shapes of the search side: what yt-dlp's flat search hands back
 * for one query, and the track records the three search sources build
 * (the `services/search` package). A Python `dict.get` that finds no key, or finds
 * `None`, is `None` here.
 */
module Tracks {
  import opened Wrappers
  import PyStr

  /** One flat-search entry as yt-dlp reports it. `duration` is 0 when missing or null. */
  datatype Entry = Entry(
    id: Option<string>,
    title: Option<string>,
    channel: Option<string>,
    uploader: Option<string>,
    duration: int,
    url: Option<string>,
    webpageUrl: Option<string>)

  /**
   * An element of the `entries` list: `None`, a usable dictionary, or an
   * element whose processing raises (and so ends the entry loop).
   */
  datatype RawEntry = NullEntry | Item(entry: Entry) | Faulty

  /** The outcome of one `extract_info(term, download=False)` call. */
  datatype Extraction =
    | Raised                              // the call raised
    | NoResult                            // it returned a falsy result
    | Listing(entries: seq<RawEntry>)     // `result.get("entries") or []`

  /** The track records the search sources return (the Python dictionaries, by key set). */
  datatype Track =
    | YouTubeTrack(id: string, title: string, artist: string, duration: int, url: string)
    | SpotifyTrack(title: string, artist: string, album: string, url: string)
    | LyricsTrack(id: string, title: string, duration: int, url: string)
  {
    /** `track.get("id", "")`. */
    function IdOr(default: string): string
    {
      if SpotifyTrack? then default else id
    }

    /** `track.get("duration")`: Spotify records have no such key. */
    function DurationField(): Option<int>
    {
      if SpotifyTrack? then None else Some(duration)
    }

    /** `track.get("artist", "")`: lyrics records have no such key. */
    function ArtistOr(default: string): string
    {
      if LyricsTrack? then default else artist
    }
  }

  /** Python truthiness of an optional string. */
  predicate Truthy(o: Option<string>)
  {
    o.Some? && o.value != ""
  }

  /** Python's `o or default` for an optional string. */
  function Or(o: Option<string>, default: string): (r: string)
    ensures Truthy(o) ==> r == o.value
    ensures !Truthy(o) ==> r == default
  {
    if Truthy(o) then o.value else default
  }

  /** The title placeholder used when an entry has none ("unknown" in Uzbek). */
  const UnknownTitle := "Noma'lum"

  /** The watch page of a video id. */
  function WatchUrl(id: string): string
  {
    "https://www.youtube.com/watch?v=" + id
  }

  /** `entry.get("url") or entry.get("webpage_url") or watch-url(id)`. */
  function EntryUrl(e: Entry, vid: string): string
  {
    Or(e.url, Or(e.webpageUrl, WatchUrl(vid)))
  }

  /** An entry the loops keep: a dictionary whose id is truthy. */
  predicate HasId(r: RawEntry)
  {
    r.Item? && Truthy(r.entry.id)
  }

  /**
   * The entries an entry loop sees before an element raises, restricted to
   * those that are not `None` and carry a truthy id, in backend order.
   */
  function Usable(rs: seq<RawEntry>): (es: seq<Entry>)
    ensures |es| <= |rs|
    ensures forall i :: 0 <= i < |es| ==> Truthy(es[i].id)
  {
    if rs == [] then []
    else if rs[0].Faulty? then []
    else if HasId(rs[0]) then [rs[0].entry] + Usable(rs[1..])
    else Usable(rs[1..])
  }

  /** Before any fault, the usable entries of two runs of elements are those of each, in order. */
  lemma {:induction false} UsableConcat(a: seq<RawEntry>, b: seq<RawEntry>)
    requires forall i :: 0 <= i < |a| ==> !a[i].Faulty?
    ensures Usable(a + b) == Usable(a) + Usable(b)
  {
    if a != [] {
      assert (a + b)[0] == a[0] && (a + b)[1..] == a[1..] + b;
      assert forall i :: 0 <= i < |a[1..]| ==> a[1..][i] == a[i + 1];
      UsableConcat(a[1..], b);
    } else {
      assert a + b == b;
    }
  }

  /** Each element after a fault-free run is appended to the kept entries exactly when it has a truthy id. */
  lemma UsableAppend(rs: seq<RawEntry>, x: RawEntry)
    requires forall i :: 0 <= i < |rs| ==> !rs[i].Faulty?
    ensures Usable(rs + [x]) == Usable(rs) + (if HasId(x) then [x.entry] else [])
  {
    UsableConcat(rs, [x]);
    UsableOne(x);
  }

  /** A single element is kept exactly when it has a truthy id. */
  lemma UsableOne(x: RawEntry)
    ensures Usable([x]) == (if HasId(x) then [x.entry] else [])
  {
    assert [x][1..] == [];
  }

  /** Usable entries of one extraction: a call that raised or found nothing contributes none. */
  function UsableOf(x: Extraction): seq<Entry>
  {
    if x.Listing? then Usable(x.entries) else []
  }

  /** What one search call returns, with the search terms it sent to yt-dlp, in order. */
  datatype Outcome = Outcome(out: seq<Track>, issued: seq<string>)

  /** The search term prefix `ytsearch{limit}:`. */
  function SearchPrefix(limit: int): string
  {
    "ytsearch" + PyStr.IntToString(limit) + ":"
  }
}
