/**
 * `multi_search_text` (services/search/engine.py): YouTube first, Spotify
 * second, and the lyrics search only when both of those come back empty.
 */
module Engine {
  import opened Tracks
  import PyStr
  import YouTubeMusic
  import Spotify
  import Lyrics

  /** The three lists, as the sources returned them. */
  datatype MultiSearchResult = MultiSearchResult(youtube: seq<Track>, spotify: seq<Track>, lyrics: seq<Track>)

  /** One call into a search source, with the query and limit it was given. */
  datatype SourceCall =
    | YouTubeCall(query: string, limit: int)
    | SpotifyCall(query: string, limit: int)
    | LyricsCall(query: string, limit: int)

  datatype Searched = Searched(result: MultiSearchResult, calls: seq<SourceCall>)

  const YouTubeLimit := 10
  const SpotifyLimit := 5
  const LyricsLimit := 10

  /** The fallback policy over any three sources, with the calls it makes in order. */
  function MultiSearch(query: string, youtube: (string, int) -> seq<Track>, spotify: (string, int) -> seq<Track>,
                       lyrics: (string, int) -> seq<Track>): (s: Searched)
    ensures s.result.youtube == youtube(query, YouTubeLimit) && s.result.spotify == spotify(query, SpotifyLimit)
    ensures s.result.lyrics != [] ==> s.result.youtube == [] && s.result.spotify == []
  {
    var yt := youtube(query, YouTubeLimit);
    var sp := spotify(query, SpotifyLimit);
    var primary := [YouTubeCall(query, YouTubeLimit), SpotifyCall(query, SpotifyLimit)];
    if yt == [] && sp == [] then
      Searched(MultiSearchResult(yt, sp, lyrics(query, LyricsLimit)), primary + [LyricsCall(query, LyricsLimit)])
    else
      Searched(MultiSearchResult(yt, sp, []), primary)
  }

  /** The number of lyrics calls in a call trace. */
  function LyricsCalls(calls: seq<SourceCall>): nat
  {
    if calls == [] then 0 else (if calls[0].LyricsCall? then 1 else 0) + LyricsCalls(calls[1..])
  }

  /** YouTube is called once with limit 10, then Spotify once with limit 5, and nothing else before them. */
  lemma PrimaryCallsFirst(query: string, youtube: (string, int) -> seq<Track>, spotify: (string, int) -> seq<Track>,
                          lyrics: (string, int) -> seq<Track>)
    ensures var c := MultiSearch(query, youtube, spotify, lyrics).calls;
            2 <= |c| <= 3 && c[0] == YouTubeCall(query, 10) && c[1] == SpotifyCall(query, 5)
  {
  }

  /** The lyrics source is called at most once, with limit 10, and exactly when both primary lists are empty. */
  lemma LyricsOnlyWhenBothEmpty(query: string, youtube: (string, int) -> seq<Track>, spotify: (string, int) -> seq<Track>,
                                lyrics: (string, int) -> seq<Track>)
    ensures var s := MultiSearch(query, youtube, spotify, lyrics);
            LyricsCalls(s.calls) <= 1 &&
            (LyricsCall(query, 10) in s.calls <==> youtube(query, 10) == [] && spotify(query, 5) == []) &&
            (LyricsCalls(s.calls) == 1 <==> youtube(query, 10) == [] && spotify(query, 5) == [])
  {
    var c := MultiSearch(query, youtube, spotify, lyrics).calls;
    assert c[1..] == c[1..2] + c[2..];
    assert LyricsCalls(c) == LyricsCalls(c[2..]) by {
      assert c[1..][1..] == c[2..];
    }
    if |c| == 3 {
      assert c[2..][1..] == [];
      assert LyricsCalls(c[2..]) == 1;
    } else {
      assert c[2..] == [];
      assert forall k :: 0 <= k < |c| ==> !c[k].LyricsCall?;
    }
  }

  /** The primary lists are passed through untouched; the lyrics list is empty when either of them is not. */
  lemma PassThrough(query: string, youtube: (string, int) -> seq<Track>, spotify: (string, int) -> seq<Track>,
                    lyrics: (string, int) -> seq<Track>)
    ensures var r := MultiSearch(query, youtube, spotify, lyrics).result;
            r.youtube == youtube(query, 10) && r.spotify == spotify(query, 5) &&
            (youtube(query, 10) != [] || spotify(query, 5) != [] ==> r.lyrics == []) &&
            (youtube(query, 10) == [] && spotify(query, 5) == [] ==> r.lyrics == lyrics(query, 10))
  {
  }

  /** The bundle and the Spotify token cache after one `multi_search_text` call. */
  datatype Answer = Answer(result: MultiSearchResult, cache: Spotify.CacheState)

  /**
   * `multi_search_text(query)` over the three concrete sources: yt-dlp's
   * answers for YouTube and for lyrics, and the Spotify endpoints with the
   * token cache `cache` at time `now`.
   */
  function MultiSearchText(query: string, cache: Spotify.CacheState, env: map<string, string>, now: int,
                           ytExtract: string -> Extraction,
                           exchange: Spotify.TokenRequest -> Spotify.TokenResponse,
                           get: Spotify.SearchRequest -> Spotify.SearchResponse,
                           lyExtract: string -> Extraction): (a: Answer)
    ensures a.result.youtube == YouTubeMusic.Search(query, YouTubeLimit, ytExtract).out
    ensures a.result.lyrics != [] ==> a.result.youtube == [] && a.result.spotify == []
  {
    var s := MultiSearch(query,
      (q: string, l: int) => YouTubeMusic.Search(q, l, ytExtract).out,
      (q: string, l: int) => Spotify.Search(cache, q, l, Spotify.DefaultMarket, env, now, exchange, get).out,
      (q: string, l: int) => Lyrics.Search(q, l, lyExtract).out);
    Answer(s.result, Spotify.Search(cache, query, SpotifyLimit, Spotify.DefaultMarket, env, now, exchange, get).cache)
  }

  /** A blank query gives three empty lists, sends nothing to any backend and leaves the token cache alone. */
  lemma BlankQueryAllEmpty(query: string, cache: Spotify.CacheState, env: map<string, string>, now: int,
                           ytExtract: string -> Extraction,
                           exchange: Spotify.TokenRequest -> Spotify.TokenResponse,
                           get: Spotify.SearchRequest -> Spotify.SearchResponse,
                           lyExtract: string -> Extraction)
    requires PyStr.IsBlank(query)
    ensures MultiSearchText(query, cache, env, now, ytExtract, exchange, get, lyExtract)
         == Answer(MultiSearchResult([], [], []), cache)
    ensures YouTubeMusic.Search(query, 10, ytExtract).issued == []
    ensures Lyrics.Search(query, 10, lyExtract).issued == []
    ensures var sp := Spotify.Search(cache, query, 5, Spotify.DefaultMarket, env, now, exchange, get);
            sp.tokenSent.None? && sp.searchSent.None?
  {
    YouTubeMusic.BlankQuerySearchesNothing(query, 10, ytExtract);
    Spotify.BlankQueryNoRequest(cache, query, 5, Spotify.DefaultMarket, env, now, exchange, get);
  }
}
