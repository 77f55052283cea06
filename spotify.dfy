/**
 * The optional Spotify source (services/search/spotify.py): credentials from
 * the environment, a process-wide bearer-token cache filled by the OAuth 2.0
 * client-credentials grant (section 4.4 of RFC 6749) with an HTTP Basic
 * header (section 2 of RFC 7617), and a track search sent with a Bearer
 * header (section 2.1 of RFC 6750), whose items are normalised to
 * title/artist/album/url records.
 *
 * The clock, the environment and both HTTP calls are parameters: `now` is
 * `int(time.time())`, `env` the process environment, `exchange` the token
 * endpoint and `get` the search endpoint.
 */
module Spotify {
  import opened Wrappers
  import opened Tracks
  import PyStr
  import Utf8
  import Base64

  const ClientIdVar := "SPOTIFY_CLIENT_ID"
  const ClientSecretVar := "SPOTIFY_CLIENT_SECRET"
  const TokenUrl := "https://accounts.spotify.com/api/token"
  const SearchUrl := "https://api.spotify.com/v1/search"
  const FormContentType := "application/x-www-form-urlencoded"
  const GrantType := "client_credentials"
  /** Both requests are sent with `timeout=20`. */
  const RequestTimeout := 20
  /** A cached token is not used in its last 30 seconds. */
  const ExpiryMargin := 30
  const DefaultLimit := 5
  const DefaultMarket := "UZ"

  /** `os.getenv(name) or ""`. */
  function GetEnv(env: map<string, string>, name: string): string
  {
    if name in env then env[name] else ""
  }

  datatype Credentials = Credentials(clientId: string, secret: string)

  /** `_get_credentials`: both variables, stripped; absent when either is missing or blank. */
  function GetCredentials(env: map<string, string>): (r: Option<Credentials>)
    ensures r.Some? <==> !PyStr.IsBlank(GetEnv(env, ClientIdVar)) && !PyStr.IsBlank(GetEnv(env, ClientSecretVar))
    ensures r.Some? ==> r.value == Credentials(PyStr.Strip(GetEnv(env, ClientIdVar)), PyStr.Strip(GetEnv(env, ClientSecretVar)))
  {
    PyStr.StripEmptyIffBlank(GetEnv(env, ClientIdVar));
    PyStr.StripEmptyIffBlank(GetEnv(env, ClientSecretVar));
    var cid := PyStr.Strip(GetEnv(env, ClientIdVar));
    var sec := PyStr.Strip(GetEnv(env, ClientSecretVar));
    if cid == "" || sec == "" then None else Some(Credentials(cid, sec))
  }

  /** The token request: a form POST with a Basic authorization header. */
  datatype TokenRequest = TokenRequest(
    url: string, authorization: string, contentType: string, grantType: string, timeout: int)

  const BasicScheme := "Basic "

  /** The token request for a client: its header carries the Base64 text of the UTF-8 bytes of `cid:sec`. */
  function TokenRequestFor(c: Credentials): (r: TokenRequest)
    ensures PyStr.StartsWith(r.authorization, BasicScheme)
    ensures r.authorization[|BasicScheme|..] == Base64.EncodeText(c.clientId + ":" + c.secret)
    ensures r.url == TokenUrl && r.grantType == GrantType && r.contentType == FormContentType
  {
    var basic := Base64.EncodeText(c.clientId + ":" + c.secret);
    assert (BasicScheme + basic)[|BasicScheme|..] == basic;
    TokenRequest(TokenUrl, BasicScheme + basic, FormContentType, GrantType, RequestTimeout)
  }

  /** The Basic credentials decode back to exactly the UTF-8 bytes of `cid:sec`. */
  lemma BasicHeaderDecodes(c: Credentials)
    ensures Base64.Decode(TokenRequestFor(c).authorization[|BasicScheme|..]) == Some(Utf8.Encode(c.clientId + ":" + c.secret))
  {
  }

  /**
   * What the token endpoint gives back: a call that raised (the request, the
   * JSON decoding or the `int` conversion of `expires_in`), or a reply with
   * its status, `access_token` and `expires_in` (`None` when missing or falsy).
   */
  datatype TokenResponse =
    | TokenRaised
    | TokenReply(status: int, accessToken: Option<string>, expiresIn: Option<int>)

  /** The contents of `_token_cache`. */
  datatype CacheState = CacheState(accessToken: Option<string>, expiresAt: int)

  const InitialCache := CacheState(None, 0)

  /** The cached token may be used at time `now`. */
  predicate Fresh(c: CacheState, now: int)
  {
    Truthy(c.accessToken) && c.expiresAt - ExpiryMargin > now
  }

  /** The token returned, the token request sent (if any) and the new cache. */
  datatype Acquired = Acquired(token: Option<string>, sent: Option<TokenRequest>, cache: CacheState)

  /** The reply was a success: status 200 and a truthy token. */
  predicate Granted(resp: TokenResponse)
  {
    resp.TokenReply? && resp.status == 200 && Truthy(resp.accessToken)
  }

  /** `_get_access_token` from the cache `c` at time `now`. */
  function Acquire(c: CacheState, env: map<string, string>, now: int,
                   exchange: TokenRequest -> TokenResponse): Acquired
  {
    var creds := GetCredentials(env);
    if creds.None? then Acquired(None, None, c)
    else if Fresh(c, now) then Acquired(c.accessToken, None, c)
    else Exchange(c, creds.value, now, exchange)
  }

  /** The token request of `_get_access_token` and what its reply does to the cache `c`. */
  function Exchange(c: CacheState, creds: Credentials, now: int, exchange: TokenRequest -> TokenResponse): Acquired
  {
    var req := TokenRequestFor(creds);
    var resp := exchange(req);
    if Granted(resp) then
      Acquired(resp.accessToken, Some(req), CacheState(resp.accessToken, now + resp.expiresIn.GetOr(0)))
    else Acquired(None, Some(req), c)
  }

  /** One item of `tracks.items`; `Malformed` is one whose reading raises. */
  datatype SpotifyItem =
    | Malformed
    | TrackItem(name: Option<string>, artists: seq<string>, albumName: Option<string>, spotifyUrl: Option<string>)

  /** The record of a well-formed item. */
  function ItemTrack(t: SpotifyItem): (r: Track)
    requires t.TrackItem?
    ensures r.SpotifyTrack?
    ensures r.title == t.name.GetOr("")
    ensures r.artist == (if t.artists == [] then "" else t.artists[0])
    ensures r.album == Or(t.albumName, "") && r.url == Or(t.spotifyUrl, "")
  {
    SpotifyTrack(t.name.GetOr(""), if t.artists == [] then "" else t.artists[0],
                 Or(t.albumName, ""), Or(t.spotifyUrl, ""))
  }

  predicate WellFormed(items: seq<SpotifyItem>)
  {
    forall i :: 0 <= i < |items| ==> items[i].TrackItem?
  }

  /** The normalisation loop: one record per item, in order; an item that raises empties the whole answer. */
  function Normalise(items: seq<SpotifyItem>): (r: seq<Track>)
    ensures !WellFormed(items) ==> r == []
    ensures WellFormed(items) ==> |r| == |items| && forall i :: 0 <= i < |items| ==> r[i] == ItemTrack(items[i])
  {
    if items == [] then []
    else if items[0].Malformed? then []
    else
      var rest := Normalise(items[1..]);
      if !WellFormed(items[1..]) then []
      else [ItemTrack(items[0])] + rest
  }

  /** The search request with a Bearer header. */
  datatype SearchRequest = SearchRequest(
    url: string, authorization: string, q: string, kind: string, limit: int, market: string, timeout: int)

  function SearchRequestFor(token: string, q: string, limit: int, market: string): SearchRequest
  {
    SearchRequest(SearchUrl, "Bearer " + token, q, "track", limit, market, RequestTimeout)
  }

  /** What the search endpoint gives back; `items` is `[]` when `tracks` or `items` is missing. */
  datatype SearchResponse = SearchRaised | SearchReply(status: int, items: seq<SpotifyItem>)

  /** The records returned, the requests sent, and the token cache afterwards. */
  datatype SpotifyOutcome = SpotifyOutcome(
    out: seq<Track>, tokenSent: Option<TokenRequest>, searchSent: Option<SearchRequest>, cache: CacheState)

  /** `search_spotify_tracks(query, limit, market)` from the cache `c` at time `now`. */
  function Search(c: CacheState, query: string, limit: int, market: string, env: map<string, string>, now: int,
                  exchange: TokenRequest -> TokenResponse, get: SearchRequest -> SearchResponse): SpotifyOutcome
  {
    var q := PyStr.Strip(query);
    if q == "" then SpotifyOutcome([], None, None, c)
    else
      var a := Acquire(c, env, now, exchange);
      if !Truthy(a.token) then SpotifyOutcome([], a.sent, None, a.cache)
      else
        var req := SearchRequestFor(a.token.value, q, limit, market);
        var resp := get(req);
        var out := if resp.SearchReply? && resp.status == 200 then Normalise(resp.items) else [];
        SpotifyOutcome(out, a.sent, Some(req), a.cache)
  }

  /** The normalisation loop of `search_spotify_tracks`, proved to compute `Normalise`. */
  method NormaliseItems(items: seq<SpotifyItem>) returns (out: seq<Track>)
    ensures out == Normalise(items)
  {
    out := [];
    var i := 0;
    while i < |items|
      invariant 0 <= i <= |items|
      invariant WellFormed(items[..i])
      invariant out == Normalise(items[..i])
    {
      if items[i].Malformed? {
        // the exception handler answers `[]`
        assert !WellFormed(items) by {
          assert !items[i].TrackItem?;
        }
        return [];
      }
      assert items[..i + 1] == items[..i] + [items[i]];
      out := out + [ItemTrack(items[i])];
      assert WellFormed(items[..i + 1]);
      i := i + 1;
    }
    assert items[..i] == items;
  }

  /** The process-wide `_token_cache`, with the two functions that use it. */
  class TokenCache {
    var accessToken: Option<string>
    var expiresAt: int

    /** The cache at import time: no token, `expires_at` 0. */
    constructor()
      ensures State() == InitialCache
    {
      accessToken := None;
      expiresAt := 0;
    }

    function State(): CacheState
      reads this
    {
      CacheState(accessToken, expiresAt)
    }

    /** `_get_access_token`, with the token request it sent, if any. */
    method GetAccessToken(env: map<string, string>, now: int, exchange: TokenRequest -> TokenResponse)
      returns (token: Option<string>, sent: Option<TokenRequest>)
      modifies this
      ensures Acquired(token, sent, State()) == Acquire(old(State()), env, now, exchange)
    {
      var creds := GetCredentials(env);
      if creds.None? {
        return None, None;
      }
      if Truthy(accessToken) && expiresAt - ExpiryMargin > now {
        return accessToken, None;
      }
      token, sent := RequestToken(creds.value, now, exchange);
    }

    /** The token request of `_get_access_token`, storing a granted token with its expiry. */
    method RequestToken(creds: Credentials, now: int, exchange: TokenRequest -> TokenResponse)
      returns (token: Option<string>, sent: Option<TokenRequest>)
      modifies this
      ensures Acquired(token, sent, State()) == Exchange(old(State()), creds, now, exchange)
    {
      var req := TokenRequestFor(creds);
      sent := Some(req);
      var resp := exchange(req);
      // a status other than 200 and a missing token both answer `None`
      if !Granted(resp) {
        return None, sent;
      }
      token := resp.accessToken;
      accessToken, expiresAt := resp.accessToken, now + resp.expiresIn.GetOr(0);
    }

    /** `search_spotify_tracks`, with the requests it sent. */
    method SearchSpotifyTracks(query: string, limit: int, market: string, env: map<string, string>, now: int,
                               exchange: TokenRequest -> TokenResponse, get: SearchRequest -> SearchResponse)
      returns (out: seq<Track>, tokenSent: Option<TokenRequest>, searchSent: Option<SearchRequest>)
      modifies this
      ensures SpotifyOutcome(out, tokenSent, searchSent, State())
           == Search(old(State()), query, limit, market, env, now, exchange, get)
    {
      ghost var c0 := State();
      var q := PyStr.Strip(query);
      if q == "" {
        return [], None, None;
      }
      var token;
      token, tokenSent := GetAccessToken(env, now, exchange);
      ghost var a := Acquire(c0, env, now, exchange);
      assert a == Acquired(token, tokenSent, State());
      if !Truthy(token) {
        return [], tokenSent, None;
      }
      var req := SearchRequestFor(token.value, q, limit, market);
      searchSent := Some(req);
      var resp := get(req);
      ghost var r := Search(c0, query, limit, market, env, now, exchange, get);
      assert r == SpotifyOutcome(if resp.SearchReply? && resp.status == 200 then Normalise(resp.items) else [],
                                 tokenSent, searchSent, State());
      if !resp.SearchReply? || resp.status != 200 {
        assert r.out == [];
        return [], tokenSent, searchSent;
      }
      out := NormaliseItems(resp.items);
      assert r.out == out;
    }
  }

  /** Without both credentials no token is returned, no request is sent and the cache is untouched. */
  lemma NoCredentialsNoToken(c: CacheState, env: map<string, string>, now: int, exchange: TokenRequest -> TokenResponse)
    requires PyStr.IsBlank(GetEnv(env, ClientIdVar)) || PyStr.IsBlank(GetEnv(env, ClientSecretVar))
    ensures Acquire(c, env, now, exchange) == Acquired(None, None, c)
  {
  }

  /** The token request is always sent; a granted reply is stored, any other leaves the cache as it was. */
  lemma ExchangeEffect(c: CacheState, creds: Credentials, now: int, exchange: TokenRequest -> TokenResponse)
    ensures var resp := exchange(TokenRequestFor(creds));
            var a := Exchange(c, creds, now, exchange);
            a.sent == Some(TokenRequestFor(creds)) &&
            (Granted(resp) ==> Truthy(a.token) && a.token == resp.accessToken &&
                               a.cache == CacheState(resp.accessToken, now + resp.expiresIn.GetOr(0))) &&
            (!Granted(resp) ==> a.token.None? && a.cache == c)
  {
  }

  /** With credentials, the token endpoint is skipped exactly when the cached token is fresh, which is then returned. */
  lemma CacheHitIffFresh(c: CacheState, env: map<string, string>, now: int, exchange: TokenRequest -> TokenResponse)
    requires GetCredentials(env).Some?
    ensures var a := Acquire(c, env, now, exchange);
            (a.sent.None? <==> Fresh(c, now)) &&
            (Fresh(c, now) ==> a.token == c.accessToken && a.cache == c) &&
            (!Fresh(c, now) ==> a.sent == Some(TokenRequestFor(GetCredentials(env).value)))
  {
    ExchangeEffect(c, GetCredentials(env).value, now, exchange);
  }

  /** A granted exchange stores the token with expiry `now + expires_in`, `now` being read before the request. */
  lemma GrantedExchangeStores(c: CacheState, env: map<string, string>, now: int, exchange: TokenRequest -> TokenResponse)
    requires GetCredentials(env).Some? && !Fresh(c, now)
    requires Granted(exchange(TokenRequestFor(GetCredentials(env).value)))
    ensures var resp := exchange(TokenRequestFor(GetCredentials(env).value));
            var a := Acquire(c, env, now, exchange);
            a.token == resp.accessToken && a.cache == CacheState(resp.accessToken, now + resp.expiresIn.GetOr(0))
  {
    ExchangeEffect(c, GetCredentials(env).value, now, exchange);
  }

  /** A failed exchange (an exception, a status other than 200, no token) returns `None` and keeps the cache. */
  lemma FailedExchangeKeepsCache(c: CacheState, env: map<string, string>, now: int, exchange: TokenRequest -> TokenResponse)
    requires GetCredentials(env).Some? && !Fresh(c, now)
    requires !Granted(exchange(TokenRequestFor(GetCredentials(env).value)))
    ensures var a := Acquire(c, env, now, exchange);
            a.token.None? && a.cache == c
  {
    ExchangeEffect(c, GetCredentials(env).value, now, exchange);
  }

  /** Every token handed out is truthy, and it is the one the cache holds afterwards. */
  lemma TokenIsCached(c: CacheState, env: map<string, string>, now: int, exchange: TokenRequest -> TokenResponse)
    ensures var a := Acquire(c, env, now, exchange);
            a.token.Some? ==> Truthy(a.token) && a.cache.accessToken == a.token
  {
    var creds := GetCredentials(env);
    if creds.Some? && !Fresh(c, now) {
      ExchangeEffect(c, creds.value, now, exchange);
    }
  }

  /**
   * A token granted with `expires_in` seconds is reused, with no further
   * request, by every later call made before its last 30 seconds.
   */
  lemma GrantedTokenReused(c: CacheState, env: map<string, string>, now: int, later: int,
                           exchange: TokenRequest -> TokenResponse, exchange': TokenRequest -> TokenResponse)
    requires GetCredentials(env).Some? && !Fresh(c, now)
    requires Granted(exchange(TokenRequestFor(GetCredentials(env).value)))
    requires later < now + exchange(TokenRequestFor(GetCredentials(env).value)).expiresIn.GetOr(0) - ExpiryMargin
    ensures var a := Acquire(c, env, now, exchange);
            Acquire(a.cache, env, later, exchange') == Acquired(a.token, None, a.cache)
  {
    ExchangeEffect(c, GetCredentials(env).value, now, exchange);
  }

  /** A blank query gives `[]` before any token request. */
  lemma BlankQueryNoRequest(c: CacheState, query: string, limit: int, market: string, env: map<string, string>, now: int,
                            exchange: TokenRequest -> TokenResponse, get: SearchRequest -> SearchResponse)
    requires PyStr.IsBlank(query)
    ensures Search(c, query, limit, market, env, now, exchange, get) == SpotifyOutcome([], None, None, c)
  {
    PyStr.StripEmptyIffBlank(query);
  }

  /** Without credentials the search gives `[]` and sends nothing. */
  lemma NoCredentialsNoSearch(c: CacheState, query: string, limit: int, market: string, env: map<string, string>, now: int,
                              exchange: TokenRequest -> TokenResponse, get: SearchRequest -> SearchResponse)
    requires GetCredentials(env).None?
    ensures Search(c, query, limit, market, env, now, exchange, get) == SpotifyOutcome([], None, None, c)
  {
  }

  /**
   * Once a token is held, the query is sent with it as a Bearer header; a
   * status other than 200, or a call that raises, gives `[]`; a 200 gives the
   * normalised items.
   */
  lemma SearchAnswer(c: CacheState, query: string, limit: int, market: string, env: map<string, string>, now: int,
                     exchange: TokenRequest -> TokenResponse, get: SearchRequest -> SearchResponse)
    requires !PyStr.IsBlank(query)
    requires Acquire(c, env, now, exchange).token.Some?
    ensures var token := Acquire(c, env, now, exchange).token.value;
            var req := SearchRequest(SearchUrl, "Bearer " + token, PyStr.Strip(query), "track", limit, market, RequestTimeout);
            var r := Search(c, query, limit, market, env, now, exchange, get);
            r.searchSent == Some(req) &&
            (get(req).SearchReply? && get(req).status == 200 ==> r.out == Normalise(get(req).items)) &&
            (!(get(req).SearchReply? && get(req).status == 200) ==> r.out == [])
  {
    PyStr.StripEmptyIffBlank(query);
    TokenIsCached(c, env, now, exchange);
  }
}
