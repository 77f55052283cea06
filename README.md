# telegram-media-scraper core, modelled in Dafny

The system is a Telegram bot. A user sends it either a song query or a
link to a video. It answers in one of three ways:

- a query gets a multi-source music search: YouTube Music first, Spotify
  second, and a YouTube "lyrics" search only when both of those are empty;
- a link gets a download menu;
- a short clip can be recognised with Shazam.

The bot keeps each user's state in a per-user dictionary, `context.user_data`.
Keyboard buttons carry callback data (`select_7`, `page_1`, `ytdl_{id}_{height}`,
`social_audio_{platform}_{hash}`, `music_instagram_{hash}`). The callback
handler decodes that data, looks its keys up in the dictionary, runs a
downloader adapter, logs the download and sends the file.

This project models that core and proves properties of it:

- **Search sources.** `YouTubeMusic` tries five query variants, removes
  duplicate ids and caps the count. `Spotify` covers the credential check,
  the token cache with its 30-second margin, the Basic header and the
  normalisation of search items. `Lyrics` runs a single search. `Engine`
  applies the fallback policy.
- **Downloaders.**
  - `Factory` picks the first adapter, in priority order, that detects the URL.
  - `YouTubeService` lists the available qualities (whitelisted heights,
    deduplicated and sorted) and builds the yt-dlp options for a download.
  - `TikTokService` and `LikeeService` cover URL detection and info defaults.
  - `Media` holds what the adapters share:
    - the output-file probe;
    - the social video and audio downloads;
    - the regex detectors, proved equivalent to "a literal followed by a
      class character".
  - The TikTok and Likee `get_available_qualities` return a constant list,
    `Media.FixedQualities`.
- **Bot handlers.** `BotSearch` covers `format_duration`, `format_results`,
  `build_search_keyboard` and the answer tiers of `handle_search_request`.
  `BotDownload` covers:
  - the quality and social keyboards;
  - what `handle_download_request` stores;
  - `process_download`, where each download record goes through the
    statuses processing, then completed or failed.

  `BotCallback` covers every callback branch.
- **Shazam.** `Shazam` covers the 12-second snippet window, the shaping of
  the reply, and removal of the snippet file.

Shared modules:

- `Session` models `context.user_data` as an insertion-ordered list of slots
  with distinct keys. The dictionary is a class (`Session.UserData`) whose
  methods update it in place.
- `PyStr`, `Utf8` and `Base64` model the Python string, UTF-8 and Base64
  operations the core relies on.
- `Keyboard` models the row grouping of inline keyboards.

Parameters stand for everything outside the core. These are yt-dlp, the file
system, the HTTP endpoints, the clock, the environment, `hash()`, the database
user lookup and the Telegram send calls. Each parameter is named where it is
used. Two behaviours of the code are worth naming:

- the YouTube detector is case-sensitive, as its `re.compile` has no flag;
- `get_available_qualities` of the YouTube adapter returns an empty list, with
  no Audio entry, when `get_info` fails.

## Model

| member | source | states |
|---|---|---|
| PyStr.LStrip | services/search/youtube_music.py:23 | The leading part of `strip()`. The result is a suffix of the input that starts with a non-space, and everything cut off is whitespace. |
| PyStr.RStrip | services/search/youtube_music.py:23 | The trailing part of `strip()`. The result is a prefix of the input that ends with a non-space, and everything cut off is whitespace. |
| PyStr.StripEmptyIffBlank | services/search/youtube_music.py:23-25 | The stripped query is empty exactly when the query is all whitespace. So the `if not query` check rejects exactly the blank queries. |
| PyStr.SplitCons | bot/handlers/callback.py:300 | Splitting `x + "_" + y` on `_`, where `x` holds no `_`, gives `x` followed by the split of `y`. |
| PyStr.SplitMaxCons | bot/handlers/callback.py:213 | The same, for `split('_', n)`: the first field is cut off and the rest is split with one split fewer. |
| PyStr.SplitJoin | bot/handlers/callback.py:300 | Splitting a `_`-join of fields that hold no `_` gives the fields back. |
| PyStr.Basename | bot/handlers/callback.py:352 | `os.path.basename` returns a suffix of the path that contains no `/`. |
| PyStr.Take | bot/handlers/download.py:84 | `s[:n]` is the prefix of length min(n, len(s)). |
| PyStr.IndexOf | bot/handlers/callback.py:300 | The first position of the separator, or the length when it does not occur: no earlier character is the separator. |
| PyStr.LastIndexOf | bot/handlers/callback.py:213-215 | The last position of the separator, or the length when it does not occur: no later character is the separator. |
| PyStr.NatToString | bot/handlers/search.py:23 | `str(n)` of a natural number is a non-empty run of digits with no leading zero unless n is 0. |
| PyStr.IntToStringShape | bot/handlers/callback.py:111 | `str(i)` has no surrounding whitespace and no `_`. It is digits, preceded by `-` exactly when i is negative. |
| PyStr.NatToStringValue | bot/handlers/search.py:23 | The decimal digits `str(n)` writes read back as n. |
| PyStr.ParseIntOfIntToString | bot/handlers/callback.py:111 | `int(str(i)) == i` for every integer, negative ones included. |
| PyStr.ParseInt | bot/handlers/callback.py:111 | `int(s)`: a non-empty string of ASCII digits reads as its decimal value. A result is only produced when something is left after stripping whitespace. |
| PyStr.SplitPartsFree | bot/handlers/callback.py:300 | No part of `s.split(c)` contains `c`. |
| PyStr.SplitMaxPartsFree | bot/handlers/callback.py:213 | No part of `s.split(c, n)` but the last contains `c`. |
| PyStr.RSplitOnce | bot/handlers/callback.py:213-215 | `s.rsplit(c, 1)`: one part is the whole string, which holds no `c`. Two parts rejoin with `c` to the string, and the second part holds no `c`. |
| PyStr.ReplaceAllTag | bot/handlers/callback.py:222-223 | `(tag + h).replace(tag, "")` gives `h` back when the tag ends in `_` and `h` holds no `_`: the hash a session key carries. |
| PyStr.IntToStringInjective | bot/handlers/callback.py:125 | Different integers print as different strings. |
| Utf8.EncodeChar | services/search/spotify.py:42 | A character encodes to 1 to 4 bytes. It encodes to the single byte of its own value exactly when it is ASCII. |
| Utf8.EncodeAppend | services/search/spotify.py:42 | `.encode("utf-8")` distributes over concatenation. |
| Base64.SextetRoundTrip | services/search/spotify.py:42 | Each of the 64 alphabet characters decodes to the index it encodes. |
| Base64.Encode | services/search/spotify.py:42 | `b64encode` output has 4·⌈n/3⌉ characters. |
| Base64.DecodeEncode | services/search/spotify.py:42 | Base64 decoding undoes `b64encode` for every byte string. |
| Base64.EncodeText | services/search/spotify.py:42 | `b64encode(s.encode("utf-8")).decode()` decodes back to the UTF-8 bytes of `s`. |
| Tracks.Or | services/search/youtube_music.py:62 | `x or default` is the value when it is truthy and the default otherwise. |
| Tracks.Usable | services/search/lyrics.py:37-42 | Null entries and entries with a falsy id are skipped, and every kept entry has a truthy id. There are never more kept entries than elements. |
| Tracks.UsableConcat | services/search/lyrics.py:37-42 | Before any fault, the usable entries of two runs of elements are those of the first followed by those of the second. |
| Tracks.UsableAppend | services/search/lyrics.py:37-42 | After a fault-free run, the next element is appended to the kept entries, in order, exactly when it has a truthy id. |
| Tracks.UsableOne | services/search/lyrics.py:37-42 | A single element is kept exactly when it is a dictionary with a truthy id. |
| Lyrics.Record | services/search/lyrics.py:43-48 | A usable entry becomes a lyrics track that carries the entry's id. |
| Lyrics.Records | services/search/lyrics.py:36-48 | One record per usable entry, in order. |
| Lyrics.Search | services/search/lyrics.py:15-52 | A blank query issues no search and returns []. Any other query issues exactly one search, `ytsearch{limit}:{query} lyrics`, and returns the records of its usable entries. |
| Lyrics.SearchLyricsFallback | services/search/lyrics.py:15-52 | The function's result and the searches it issues are those of `Lyrics.Search`. |
| Lyrics.CollectEntries | services/search/lyrics.py:36-48 | The entry loop returns the records of the usable entries. |
| Lyrics.NoResultIsEmpty | services/search/lyrics.py:31-50 | A failed extraction or a falsy result gives the empty list. |
| Lyrics.FaultKeepsPrefix | services/search/lyrics.py:36-50 | An entry that raises midway keeps the records gathered before it and drops every later entry: the `try` is outside the loop. |
| Lyrics.DuplicatesKept | services/search/lyrics.py:37-48 | Unlike the YouTube search, the lyrics search records the same entry twice when it is listed twice. |
| Lyrics.RecordsHaveIds | services/search/lyrics.py:40-42 | Every lyrics record has a non-empty id. |
| YouTubeMusic.Variants | services/search/youtube_music.py:27-33 | There are five search queries: `ytsearch{limit}:{query}` followed by " audio", " official audio", "", " music" and " song", in that order. |
| YouTubeMusic.Record | services/search/youtube_music.py:62-70 | An entry becomes a YouTube track whose id is the entry's id. |
| YouTubeMusic.AbsorbEntries | services/search/youtube_music.py:55-72 | The entry loop leaves the output and the seen-set of `YouTubeMusic.Absorb`. |
| YouTubeMusic.TryVariants | services/search/youtube_music.py:46-75 | The variant loop, with its limit check, its empty results and its caught exceptions, computes `YouTubeMusic.RunVariants`. |
| YouTubeMusic.SearchYouTubeMusic | services/search/youtube_music.py:18-77 | The function's result and the searches it issues are those of `YouTubeMusic.Search`. |
| YouTubeMusic.TakeN | services/search/youtube_music.py:71-72 | The first min(n, len) tracks, as a prefix. Nothing is kept when n ≤ 0. |
| YouTubeMusic.AbsorbIsDedup | services/search/youtube_music.py:55-72 | One listing appends the first occurrence of each unseen id, cut at the limit. While the limit is not reached, the seen-set grows by exactly the listing's ids. |
| YouTubeMusic.RunIsDedup | services/search/youtube_music.py:46-75 | Over all the variants, the output is the first `limit` first-occurrences of the usable entries of every listing, in order. |
| YouTubeMusic.SearchIsFirstOccurrences | services/search/youtube_music.py:18-77 | The whole search returns the first `limit` entries with distinct ids across the five listings, in order. It is an independent definition of the two loops. |
| YouTubeMusic.DedupDistinct | services/search/youtube_music.py:58-61 | The deduplicated tracks are YouTube tracks. Their ids are pairwise distinct and none was already seen. |
| YouTubeMusic.BlankQuerySearchesNothing | services/search/youtube_music.py:23-25 | A blank query issues no search and returns []. |
| YouTubeMusic.SearchRecordsDistinct | services/search/youtube_music.py:18-77 | The result holds at most `limit` tracks, each with a non-empty id, and no id appears twice. |
| YouTubeMusic.SearchIssuesVariantsInOrder | services/search/youtube_music.py:46-53 | The searches issued are a prefix of the five variants. The loop stops early only once `limit` tracks are gathered. With a positive limit, at least one search is issued. |
| Spotify.GetCredentials | services/search/spotify.py:24-29 | Credentials exist exactly when both environment variables are non-blank. They are then the two stripped values. |
| Spotify.TokenRequestFor | services/search/spotify.py:41-53 | The token request goes to the accounts endpoint with the client-credentials grant and a form body. Its header is `Basic ` followed by the Base64 of `id:secret`. |
| Spotify.BasicHeaderDecodes | services/search/spotify.py:42 | The credential part of the Basic header decodes back to the UTF-8 bytes of `id:secret`. |
| Spotify.ItemTrack | services/search/spotify.py:90-100 | An item becomes a Spotify track. The title is the track's name, or "" when there is none. The artist is the first artist's name, or "" when there is none. The album and the url are `or ""`. |
| Spotify.Normalise | services/search/spotify.py:87-103 | One track per item, in order. A malformed item, where Python raises, turns the whole answer into []. |
| Spotify.NormaliseItems | services/search/spotify.py:89-101 | The item loop computes `Spotify.Normalise`. |
| Spotify.TokenCache.constructor | services/search/spotify.py:18-21 | The cache starts with no token and an expiry of 0. |
| Spotify.TokenCache.GetAccessToken | services/search/spotify.py:32-65 | `_get_access_token` returns the token and the request it sent, and leaves the cache, as `Spotify.Acquire` gives them from the old cache. |
| Spotify.TokenCache.RequestToken | services/search/spotify.py:41-65 | The token exchange and its cache update are those of `Spotify.Exchange`. |
| Spotify.TokenCache.SearchSpotifyTracks | services/search/spotify.py:68-103 | The search's tracks, its two requests and the new cache are those of `Spotify.Search`. |
| Spotify.NoCredentialsNoToken | services/search/spotify.py:33-35 | Without credentials, no request is sent, no token is returned and the cache is unchanged. |
| Spotify.ExchangeEffect | services/search/spotify.py:44-65 | The request is always sent. A 200 reply with a truthy token stores the token with expiry `now + expires_in` and returns it. Any other reply returns no token and leaves the cache as it was. |
| Spotify.CacheHitIffFresh | services/search/spotify.py:37-39 | With credentials, no request is sent exactly when the cached token is truthy and expires more than 30 seconds from now; that token is then returned. |
| Spotify.GrantedExchangeStores | services/search/spotify.py:56-63 | A granted exchange on a stale cache returns the new token and stores it with its expiry. |
| Spotify.FailedExchangeKeepsCache | services/search/spotify.py:54-65 | A refused or failed exchange returns no token and keeps the old cache. |
| Spotify.TokenIsCached | services/search/spotify.py:32-65 | Any token returned is truthy and is the one the cache now holds. |
| Spotify.GrantedTokenReused | services/search/spotify.py:37-62 | A token granted at `now` is reused without a request at any later time before its expiry minus 30 seconds. |
| Spotify.BlankQueryNoRequest | services/search/spotify.py:70-72 | A blank query sends nothing, returns [] and keeps the cache. |
| Spotify.NoCredentialsNoSearch | services/search/spotify.py:74-76 | Without credentials the search sends nothing and returns []. |
| Spotify.SearchAnswer | services/search/spotify.py:78-103 | With a token, the search GET carries the Bearer token, the stripped query, type `track`, the limit, the market and a timeout of 20. A 200 reply yields the normalised items; anything else yields []. |
| Engine.PrimaryCallsFirst | services/search/engine.py:27-28 | YouTube is called with limit 10, then Spotify with limit 5, then at most one more source. |
| Engine.LyricsOnlyWhenBothEmpty | services/search/engine.py:30-32 | The lyrics search runs at most once, with limit 10. It runs exactly when both YouTube and Spotify return nothing. |
| Engine.PassThrough | services/search/engine.py:27-34 | The bundle holds the YouTube and Spotify lists unchanged. The lyrics list is the lyrics answer when both are empty and [] otherwise. |
| Engine.BlankQueryAllEmpty | services/search/engine.py:20-34 | Over the concrete sources, a blank query gives three empty lists, sends no request to any backend and leaves the token cache alone. |
| Engine.MultiSearch | services/search/engine.py:27-34 | The bundle holds the YouTube answer for limit 10 and the Spotify answer for limit 5. A non-empty lyrics list means both of them were empty. |
| Engine.MultiSearchText | services/search/engine.py:20-34 | Over the concrete sources, the YouTube list is the YouTube Music search with limit 10. A non-empty lyrics list means YouTube and Spotify both found nothing. |
| Factory.FirstDetecting | services/downloaders/factory.py:22-28 | The first adapter, in list order, whose `detect` accepts the URL; every adapter before it declines. None exactly when every adapter declines. |
| Factory.GetDownloader | services/downloaders/factory.py:22-28 | The loop over the five adapters returns `Factory.FirstDetecting`. |
| Factory.PlatformName | services/downloaders/factory.py:35-44 | An adapter's platform name is never "other". |
| Factory.YouTubeFirst | services/downloaders/factory.py:14-28 | A URL the YouTube pattern accepts always goes to the YouTube adapter, whatever the other detectors do. |
| Factory.ChosenAfterDeclines | services/downloaders/factory.py:25-27 | The chosen adapter detects the URL, and every adapter listed before it declines. |
| Factory.PlatformNameInjective | services/downloaders/factory.py:35-44 | Different adapters have different platform names. |
| Factory.PlatformMatchesDownloader | services/downloaders/factory.py:30-45 | `detect_platform` is "other" exactly when no adapter detects the URL. Otherwise it is the name of the adapter `get_downloader` picks. |
| Factory.DetectPlatform | services/downloaders/factory.py:30-45 | "other" exactly when no adapter detects the URL. |
| Media.SocialInfo | services/downloaders/tiktok_service.py:19-33 | Info exists exactly when extraction succeeded. Its fields use the platform's defaults (as in likee_service.py:18-36), the given url, and no formats. |
| Media.AudioOptions | services/downloaders/youtube_service.py:108-118 | The audio download asks for `bestaudio/best`, extracts mp3 at 192 kbit/s and writes to the template `.mp3` to `.%(ext)s`. The flag says whether the shared base options are spread in. |
| Media.FirstExisting | services/downloaders/youtube_service.py:99-104 | The probe returns the first `output_path.replace(suffix, ext)` that exists, in extension order, and None when none exists. |
| Media.FirstProbeIsOutputPath | services/downloaders/youtube_service.py:100-101 | The first probe is the output path itself. |
| Media.NoSuffixNoSubstitution | services/downloaders/youtube_service.py:84 | For an output path without the suffix, both the template and every probe are the path unchanged. |
| Media.Downloaded | services/downloaders/youtube_service.py:95-106 | A download that raises gives None. Otherwise the result is the first existing probe. |
| Media.ProbeExtensions | services/downloaders/youtube_service.py:99-104 | The probe loop computes `Media.FirstExisting`. |
| Media.SocialVideoOptions | services/downloaders/tiktok_service.py:43-47 | The social video download asks for `best[ext=mp4]/best`, with the template `.mp4` to `.%(ext)s` and no merge format. The flag says whether the shared base options are spread in. |
| Media.SocialDownloadVideo | services/downloaders/tiktok_service.py:41-59 | After a successful run, the result is an existing mp4, webm or mkv probe. It is None exactly when the run fails or no probe exists. TikTok runs it with the base options; Likee (likee_service.py:44-63) runs it without them. |
| Media.SocialDownloadAudio | services/downloaders/tiktok_service.py:61-83 | After a successful mp3 extraction, the result is an existing mp3, m4a or ogg probe. It is None exactly when the run fails or no probe exists. TikTok runs it with the base options; Likee (likee_service.py:65-89) runs it without them. |
| Media.QualityIgnored | services/downloaders/tiktok_service.py:41-59 | The quality argument of a social video download does not change its result. |
| Media.SearchIffLiteral | services/downloaders/youtube_service.py:14-19 | An unanchored search of `(https?://)?(host)?(literal)C+` matches exactly when some literal is directly followed by a class character. |
| YouTubeService.DetectIffLiteral | services/downloaders/youtube_service.py:14-19 | `detect` accepts exactly when `youtube.com/watch?v=`, `youtube.com/shorts/` or `youtu.be/` is followed by an id character. |
| YouTubeService.GetInfo | services/downloaders/youtube_service.py:21-36 | Info exists exactly when extraction succeeded. Title, id, channel (falling back to uploader) and formats use their defaults, and the url is the given one. |
| YouTubeService.OrNumber | services/downloaders/youtube_service.py:53 | `x or y` on a number is x when x is present and non-zero, y otherwise. |
| YouTubeService.Collect | services/downloaders/youtube_service.py:47-59 | Each collected entry has a whitelisted height not seen before and the label height + "p". No height appears twice. |
| YouTubeService.SortPairs | services/downloaders/youtube_service.py:61 | The sort returns a permutation of its input, ordered by key. |
| YouTubeService.SortByHeightSorts | services/downloaders/youtube_service.py:61 | `sort(key=int(height))` keeps the same entries and count and orders them ascending. The order is strict when the heights are distinct. |
| YouTubeService.LabelKey | services/downloaders/youtube_service.py:61 | `int()` of a whitelisted height prints back as that height. |
| YouTubeService.GetAvailableQualities | services/downloaders/youtube_service.py:38-75 | The method returns `YouTubeService.AvailableQualities`. |
| YouTubeService.CollectVideoQualities | services/downloaders/youtube_service.py:43-59 | The format loop computes `YouTubeService.Collect` from an empty seen-set. |
| YouTubeService.FindAudioSize | services/downloaders/youtube_service.py:63-68 | The audio loop returns the size of the first audio-only format, or 0. |
| YouTubeService.CollectFirstSize | services/downloaders/youtube_service.py:53 | Each entry's size is that of the first format of its height. |
| YouTubeService.CollectComplete | services/downloaders/youtube_service.py:47-59 | Every offered video format's height is among the entries. |
| YouTubeService.VideoEntries | services/downloaders/youtube_service.py:43-61 | The video entries are strictly ascending by height and whitelisted, each labelled and sized from its first format. Every whitelisted video height of the formats appears. |
| YouTubeService.QualitiesShape | services/downloaders/youtube_service.py:38-75 | Failed info gives []. Otherwise the list is the sorted video entries followed by exactly one final Audio entry, sized from the first audio-only format. |
| YouTubeService.VideoFormat | services/downloaders/youtube_service.py:80-93 | A given quality other than `audio` gives a format starting `best[height<={q}]`. No quality gives `best[ext=mp4]/best`. |
| YouTubeService.DownloadVideo | services/downloaders/youtube_service.py:77-106 | The download runs with the quality's options and then probes mp4, webm and mkv (`Media.Downloaded`). |
| YouTubeService.DownloadAudio | services/downloaders/youtube_service.py:108-131 | The download runs with the audio options and then probes mp3, m4a and ogg (`Media.Downloaded`). |
| TikTokService.DetectIffLiteral | services/downloaders/tiktok_service.py:12-17 | `detect` accepts exactly when `tiktok.com/` is followed by a path character. |
| TikTokService.GetInfo | services/downloaders/tiktok_service.py:19-33 | Info exists exactly when extraction succeeded, with defaults "TikTok Video", "TikTok" and "tiktok" and no formats. |
| LikeeService.DetectIffLiteral | services/downloaders/likee_service.py:11-16 | `detect` accepts exactly when `likee.video/` or `like.video/` is followed by a path character. |
| LikeeService.GetInfo | services/downloaders/likee_service.py:18-36 | Info exists exactly when extraction succeeded, with defaults "Likee Video", "Likee" and "likee" and no formats. |
| Keyboard.LayoutGroup | bot/handlers/download.py:36-49 | The row-building loop (`row`, `rows`, the final `if row`) lays out the same rows as grouping the buttons by their "ends a row" flags. |
| Keyboard.GroupFlatten | bot/handlers/download.py:36-49 | The rows hold every button exactly once, in the original order. |
| Keyboard.GroupSizes | bot/handlers/download.py:45-47 | Every row holds one or two buttons. |
| Keyboard.GroupSplit | bot/handlers/download.py:45-47 | A row always ends after a button flagged to end it. |
| Session.Keys | bot/handlers/callback.py:221 | `list(d.keys())` has one key per slot, in insertion order. |
| Session.Get | bot/handlers/callback.py:224 | `d.get(key)` is None exactly when the key is absent. Otherwise it is the value stored under the key. |
| Session.GetPut | bot/handlers/download.py:78-86 | After `d[key] = v`, the key reads v and every other key reads as before. |
| Session.KeysPut | bot/handlers/download.py:78 | An existing key keeps its place and a new key goes last, as dict insertion order says. |
| Session.GetRemove | bot/handlers/callback.py:105-106 | After `d.pop(key, None)`, the key is absent and every other key reads as before. |
| Session.KeysRemove | bot/handlers/callback.py:105-106 | A pop removes only that key, and the keys stay distinct. |
| Session.PutDistinct | bot/handlers/download.py:78 | Assignment keeps the keys distinct. |
| Session.PutAbsent | bot/handlers/download.py:78-86 | Assigning a key not yet present appends it as the last slot. |
| Session.UserData.constructor | bot/handlers/download.py:77 | A user's dictionary starts empty. |
| Session.UserData.Set | bot/handlers/download.py:78 | `user_data[key] = v` in place: the key reads v, nothing else changes, and the keys stay distinct. |
| Session.UserData.Pop | bot/handlers/callback.py:105 | `user_data.pop(key, None)` in place: the key is gone and nothing else changes. |
| BotSearch.Pad2 | bot/handlers/search.py:17 | `{secs:02d}` for secs < 100 is two digits that read back as secs. |
| BotSearch.DurationShape | bot/handlers/search.py:11-17 | The text ends in `:` and two digits below 60. A missing or zero duration gives "0:00". |
| BotSearch.DurationParts | bot/handlers/search.py:13-17 | The shown minutes m and seconds s satisfy 60·m + s = seconds with s < 60. For negative values these are Python's floor division and modulo. |
| BotSearch.DurationInjective | bot/handlers/search.py:11-17 | Equal duration texts mean equal durations. |
| BotSearch.FormatDuration | bot/handlers/search.py:11-17 | Every duration text has a colon followed by two digits, with at least one character before the colon. |
| BotSearch.PastEndEmpty | bot/handlers/search.py:35-41 | A page at or past the end has no lines and an empty text. |
| BotSearch.Numbered | bot/handlers/search.py:38-40 | Line i renders number `first + i` with track i. |
| BotSearch.Lines | bot/handlers/search.py:38-40 | Line i is `{first+i}. {title} {duration}` for track i. |
| BotSearch.FormatResults | bot/handlers/search.py:33-41 | `format_results` returns `BotSearch.ResultsText`. |
| BotSearch.NumberLines | bot/handlers/search.py:37-40 | The enumerate loop computes `BotSearch.Numbered`. |
| BotSearch.PageWindow | bot/handlers/search.py:35-41 | Page p shows at most ten lines: the results from index 10·p on, numbered from 10·p + 1. A page past the end shows "". |
| BotSearch.NavRow | bot/handlers/search.py:25-29 | The nav row is back to `page_{p-1}`, `cancel`, then forward to `page_{p+1}`. |
| BotSearch.SelectRow | bot/handlers/search.py:23-24 | A row of five select buttons for consecutive indices. |
| BotSearch.BuildSearchKeyboard | bot/handlers/search.py:20-30 | Two rows of five select buttons cover indices 10·p to 10·p + 9, followed by the nav row. |
| BotSearch.TierOf | bot/handlers/search.py:61-105 | Exactly one answer tier applies, by precedence. YouTube results come first; then a Spotify hit with a url; then lyrics results; then nothing found. |
| BotSearch.StoredList | bot/handlers/search.py:61-95 | A list is stored only for the YouTube and the lyrics tiers. It is then that non-empty list. |
| BotSearch.TierPrecedence | bot/handlers/search.py:61-105 | Storing a list sets `results` and `page = 0` and no other key. A YouTube answer carries the Spotify extra exactly when Spotify has a url. A Spotify-only answer leaves the session unchanged. |
| BotSearch.HandleSearchRequest | bot/handlers/search.py:44-105 | An empty query gets the prompt, with no search, no log and no session change. Any other query logs the total count of the three lists and answers by tier. |
| BotDownload.QualityButtonShape | bot/handlers/download.py:39-44 | A quality button carries `ytdl_{id}_{height}`. Its text starts with the note icon exactly for the Audio entry. |
| BotDownload.Buttons | bot/handlers/download.py:38-44 | One button per quality, in order. |
| BotDownload.BuildYouTubeKeyboard | bot/handlers/download.py:34-50 | The keyboard loop computes `BotDownload.Rows`. |
| BotDownload.RowsFlatten | bot/handlers/download.py:34-50 | The keyboard holds every quality's button once, in order. |
| BotDownload.AudioEndsRow | bot/handlers/download.py:45-47 | The Audio button always closes its row. |
| BotDownload.BuildSocialKeyboard | bot/handlers/download.py:53-60 | One row of two buttons, `social_video_{platform}_{hash}` and `social_audio_{platform}_{hash}`. |
| BotDownload.StoredLookup | bot/handlers/download.py:76-107 | After a request, `url_`, `platform_` and `info_` of the hash read the stored values. `video_id_` reads the info's id cut to 20 characters, for YouTube only. Every other key is unchanged. |
| BotDownload.HandleDownloadRequest | bot/handlers/download.py:63-122 | Without info, the handler stores nothing and reports the platform's display name. With info, it stores the link. A YouTube link then gets the quality keyboard; any other platform gets the social keyboard. |
| BotDownload.PathSuffixes | bot/handlers/download.py:173-231 | The video output path ends in `.mp4` and the audio path in `_audio.mp3`, so the adapters' probes substitute the extension. |
| BotDownload.Lifecycle | bot/handlers/download.py:164-209 | A record's statuses start at processing and change at least once. |
| BotDownload.LifecycleLegal | bot/handlers/download.py:180-209 | Every status change is a legal step. The record ends failed exactly when no file came back or a later call raised, and completed exactly otherwise. An error message is set exactly when it ends failed, and a missing file gives "Download failed". |
| BotDownload.DownloadRecord.constructor | bot/handlers/download.py:164-171 | A new record holds the url, the title, the platform and the label, with status processing and no error. |
| BotDownload.DownloadRecord.Conclude | bot/handlers/download.py:180-209 | After the download, the record's status is the last status of its lifecycle and its error message is the final error. |
| BotDownload.TextAt | bot/handlers/download.py:138 | A text value is read exactly when one is stored under the key. |
| BotDownload.InfoAt | bot/handlers/download.py:151 | An info dict is read exactly when one is stored under the key. |
| BotDownload.DisplayName | bot/handlers/download.py:15-21 | The five known platforms get their display name. Any other platform is shown unchanged, and only "" shows as "". |
| BotDownload.Attempt | bot/handlers/download.py:164-209 | The record is created and the adapter downloads to `{platform}_{hash}.mp4` or `{platform}_{hash}_audio.mp3`. The record ends with the lifecycle's last status. |
| BotDownload.ProcessDownload | bot/handlers/download.py:125-264 | A missing link, an unknown platform, a missing user and another format each stop with no download and no record. A stored url, a detecting adapter, a known user and the format video or audio always lead to an attempt. The attempt downloads the hash's url in the asked format to its path, with a record titled from the stored info, whose final status follows the lifecycle. |
| BotCallback.SelectButtonRoutes | bot/handlers/callback.py:123 | Every select button reaches the `select_` branch. |
| BotCallback.NavRowRoutes | bot/handlers/callback.py:103-109 | The back and forward buttons reach `page_`, and the close button reaches `cancel`. |
| BotCallback.QualityButtonRoutes | bot/handlers/callback.py:212 | Every quality button reaches the `ytdl_` branch. |
| BotCallback.SocialDataRoutes | bot/handlers/callback.py:299 | Data starting `social_video_` or `social_audio_` reaches the social branch. None of the earlier tests catches it. |
| BotCallback.RouteOf | bot/handlers/callback.py:103-316 | `cancel` is reached exactly by the data `cancel`. Every other branch is reached only by data carrying its prefix. |
| BotCallback.SocialButtonsRoute | bot/handlers/callback.py:299 | Both social buttons reach the social branch. |
| BotCallback.SecondFieldOf | bot/handlers/callback.py:111 | `int(data.split('_')[1])` of `prefix_{n}` is n. |
| BotCallback.SelectIndexRoundTrip | bot/handlers/callback.py:125 | A select button's data reads back as its index. |
| BotCallback.PageIndexRoundTrip | bot/handlers/callback.py:111 | A page button's data reads back as its page, negative pages included. |
| BotCallback.CancelForgetsSearch | bot/handlers/callback.py:103-107 | `cancel` forgets `results` and `page` and keeps every other key, with the keys staying distinct. |
| BotCallback.HandleCancel | bot/handlers/callback.py:103-107 | The two pops leave the session without the search state. |
| BotCallback.HandlePage | bot/handlers/callback.py:109-121 | As written: bad data raises, and a page outside `0 ≤ page < (n+4)//5` changes nothing. A page inside is stored and its text built, and then the keyboard call raises. |
| BotCallback.FirstPageBackRejected | bot/handlers/callback.py:109-114 | The first page's back button asks for page -1. The bound `0 <= page < total_pages` rejects it for any results, and no page is shown. |
| BotCallback.EmptyPageAccepted | bot/handlers/callback.py:112-116 | With six results, `page_1` passes the five-per-page bound, but its page is empty. |
| BotCallback.ShowPageNonEmpty | bot/handlers/callback.py:109-120 | With pages of ten, a page is shown exactly when it holds at least one result, and its first line is that result's. |
| BotCallback.HandlePageIntended | bot/handlers/callback.py:109-120 | The intended branch shows a non-empty page with its keyboard and stores it. Any other data changes nothing. |
| BotCallback.SelectedUrl | bot/handlers/callback.py:139-140 | The url used always starts with `http`. A url that does not is replaced by the watch link. |
| BotCallback.FirstAppended | bot/handlers/callback.py:65-69 | The first `{output_path}.{ext}` that exists, in extension order, or None. |
| BotCallback.SelectAudio | bot/handlers/callback.py:25-69 | None exactly when both tries fail or none of the six extensions exists. Otherwise the file is `{dir}/{id}_audio.{ext}` for the first existing extension, in the order mp3, m4a, webm, ogg, opus, wav. |
| BotCallback.DownloadSelectAudio | bot/handlers/callback.py:25-69 | The two tries and the probe loop compute `BotCallback.SelectAudio`. |
| BotCallback.HandleSelect | bot/handlers/callback.py:123-210 | Bad data, an index outside the results and a track without a url end with no download. Otherwise the audio is downloaded; if a file exists, a completed YouTube audio entry is logged when the user is known, and the file is sent unless it is over 50 MB. |
| BotCallback.SplitYtdlRecoversIff | bot/handlers/callback.py:213-215 | As written, `ytdl_{id}_{q}` decodes to (id, q) exactly when the id holds no `_`. |
| BotCallback.SplitYtdlCutsId | bot/handlers/callback.py:213-215 | As written, `ytdl_a_b_720` decodes to id `a` and quality `b_720`. |
| BotCallback.DecodeYtdlRoundTrip | bot/handlers/callback.py:213-215 | The intended decoding recovers every id, with or without `_`, and the quality. |
| BotCallback.SplitYtdl | bot/handlers/callback.py:213-215 | As written, the id taken from `data.split('_', 2)` never holds `_`. |
| BotCallback.SplitOnceShortens | bot/handlers/callback.py:213-215 | `(id + "_" + q).split('_', 1)` cuts an id holding `_` to a shorter first part. |
| BotCallback.SplitYtdlShortens | bot/handlers/callback.py:213-215 | As written, an id holding `_` is read back strictly shorter. |
| BotCallback.DecodeYtdl | bot/handlers/callback.py:213-215 | The intended decoding is the inverse of the button format: a decoded pair rejoins as `ytdl_{id}_{q}` with no `_` in q, and data with the prefix and a later `_` always decodes. |
| BotCallback.Label | bot/handlers/callback.py:249 | The label is "Audio" exactly for the `audio` quality. |
| BotCallback.ScanVideoIds | bot/handlers/callback.py:221-229 | The hash found is that of a `video_id_` key that holds the id. |
| BotCallback.ScanVideoIdsFirst | bot/handlers/callback.py:221-229 | The scan stops at the first key, in key order, that holds the id: every earlier key declines. It finds nothing exactly when no key holds the id. |
| BotCallback.ScanInfos | bot/handlers/callback.py:231-243 | The key found is an `info_` key whose info and url are stored and whose id, cut to 20 characters, is the id. |
| BotCallback.ScanInfosFirst | bot/handlers/callback.py:231-243 | The fallback scan stops at the first matching `info_` key: every earlier key declines. It finds nothing exactly when no key matches. |
| BotCallback.ResolvedLinkStored | bot/handlers/callback.py:217-247 | A resolved link's url and info are both stored. It was found either through the id's `video_id_` key or through an info whose id is the asked id. |
| BotCallback.Resolve | bot/handlers/callback.py:217-247 | A link found has its url stored under its hash and its info under its info key. |
| BotCallback.NoInfoMatchIff | bot/handlers/callback.py:231-243 | The fallback scan finds nothing exactly when no stored key is a matching `info_` key. |
| BotCallback.FirstVideoIdIncompleteIff | bot/handlers/callback.py:221-231 | The first scan leaves `if not info or not url` true exactly when no `video_id_` key holds the id or the first one that does lacks its url or its info. |
| BotCallback.ResolveNoneIff | bot/handlers/callback.py:217-247 | Nothing is found exactly when no `info_` key matches and the first `video_id_` key holding the id, if any, lacks its url or its info. |
| BotCallback.StoredLinkResolves | bot/handlers/callback.py:217-247 | A link `handle_download_request` stored (download.py:76-86) is found again from the 20-character id its buttons carry, whatever the session held before. |
| BotCallback.StoredAlone | bot/handlers/download.py:76-86 | A session holding one YouTube link holds its `url_`, `platform_`, `info_` and `video_id_` keys, in that order. |
| BotCallback.StoredAloneMisses | bot/handlers/callback.py:217-247 | In a session holding one YouTube link, any id other than that link's finds nothing. |
| BotCallback.UnderscoreIdNeverFound | bot/handlers/callback.py:213-247 | As written, a stored YouTube link whose 20-character id holds `_` is never found from its own quality buttons. The intended decoding gives back the whole id, which is found. |
| BotCallback.FindByVideoId | bot/handlers/callback.py:221-229 | The first scan stops at the first matching `video_id_` key and reads that hash's url and info. |
| BotCallback.FindByInfo | bot/handlers/callback.py:231-243 | The fallback scan stops at the first matching `info_` key and returns its hash, url and info. |
| BotCallback.FindLink | bot/handlers/callback.py:217-247 | The two scans, the second run only when the first finds no info or no url, find the link `BotCallback.Resolve` names. |
| BotCallback.DeliverYtdl | bot/handlers/callback.py:249-297 | With no adapter, nothing is downloaded. Otherwise the asked quality is downloaded to `youtube_{hash}_{q}.mp4` or `_audio.mp3`. A file that comes back is logged as a completed YouTube download and sent when the user is known. |
| BotCallback.AnswerYtdl | bot/handlers/callback.py:217-297 | Undecodable data raises, and an id with no stored link is reported as missing. Otherwise the link `BotCallback.Resolve` finds is delivered as `BotCallback.Delivered` says. |
| BotCallback.HandleYtdl | bot/handlers/callback.py:212-297 | The branch as written: the data read by `BotCallback.SplitYtdl` is answered as `BotCallback.AnswerYtdl` says. |
| BotCallback.HandleYtdlIntended | bot/handlers/callback.py:212-297 | The branch with the intended decoding: the data read by `BotCallback.DecodeYtdl` is answered as `BotCallback.AnswerYtdl` says. |
| BotCallback.SocialDataRoundTrip | bot/handlers/callback.py:299-307 | `social_{action}_{platform}_{hash}` reads back as its three fields when the platform and the hash hold no `_`. |
| BotCallback.SocialRoundTrip | bot/handlers/callback.py:299-307 | Both buttons of the social keyboard read back as video or audio, the platform and the hash. |
| BotCallback.ParseSocial | bot/handlers/callback.py:300-307 | The action, platform and hash read from social data hold no `_`. Fewer than four parts gives None. |
| BotCallback.HandleSocial | bot/handlers/callback.py:299-314 | Bad data is refused. Otherwise `process_download` runs on the hash with the action as the format. It stops exactly as `BotDownload.ProcessDownload` does: missing link, unknown platform, missing user, other format. With all four present, the download is attempted with no quality; its record carries the stored url, the right label and the lifecycle's final status. |
| BotCallback.MusicHashRoundTrip | bot/handlers/callback.py:316-322 | Any hash, `_` or not, reads back from `music_instagram_{hash}`. |
| BotCallback.LogEntry | bot/handlers/callback.py:349-357 | The log is a success exactly when recognised. It then holds the title and artist and no error; otherwise it holds no title or artist and the error message. Its file name is the basename. |
| BotCallback.FetchMusic | bot/handlers/callback.py:316-344 | Bad data and a missing link stop early, with no recognition. A fetched video is an existing, non-empty path. |
| BotCallback.HandleMusicInstagram | bot/handlers/callback.py:316-364 | A fetched video is recognised from the snippet `Shazam.PrepareSnippet` gives for it. With a known user the result is logged and answered. The snippet and then the video are removed, whether or not the log succeeds. |
| Shazam.SnippetWindow | services/shazam/service.py:38-46 | Audio up to 12 s is taken whole. Longer audio gives a 12 s window centred to within one millisecond. |
| Shazam.Cut | services/shazam/service.py:41-46 | The snippet is the audio itself, or its 12 000 middle samples. |
| Shazam.PrepareSnippet | services/shazam/service.py:31-56 | No input gives nothing. A decoding or export failure falls back to the input file. Otherwise the exported window is at most 12 s and is the whole audio when that is shorter. |
| Shazam.Album | services/shazam/service.py:88-96 | The album is the text of the first metadata of the first section when the sections, the metadata and that text are all there, and "" otherwise. |
| Shazam.Cover | services/shazam/service.py:104-105 | The cover is the HQ cover art when it is non-empty, and the plain cover art otherwise. |
| Shazam.Shape | services/shazam/service.py:78-113 | A raised call gives "Shazam xatolik: …" and no track gives the no-song message. A track gives a recognition with the defaults "Noma'lum" and "". |
| Shazam.Cleanup | services/shazam/service.py:114-119 | The input file is never removed. An exported snippet different from the input is removed whenever recognition reached it. |
| Shazam.ShazamService.constructor | services/shazam/service.py:15-16 | The service starts with no client. |
| Shazam.ShazamService.GetShazam | services/shazam/service.py:18-29 | The client is created once, with 5 attempts, a 60 s maximum and the retry statuses 429 and 500-504, and then kept. |
| Shazam.ShazamService.Recognize | services/shazam/service.py:58-119 | The snippet is the one `Shazam.PrepareSnippet` makes of the file. The result is `Shazam.Answer` and the removed file is `Shazam.Cleanup`. The client is created exactly when recognition reaches the Shazam call. |

## Left out

- The Instagram and Snapchat adapters are not part of this model. Their `detect` is a parameter of `Factory`, and their downloads go through the same `video`/`audio` parameters as the others.
- `format_filesize` (download.py:24-31) formats floats. It is the parameter `formatSize`.
- `str(abs(hash(url)))[-10:]` depends on Python's per-process hash seed. It is the parameter `hashOf`.
- The contents of the shared base options (services/downloaders/ytdl_utils.py:21-41: quiet, no playlist, the ffmpeg lookup, the User-Agent header, the socket timeout and the retries) are not modelled. `Media.DownloadOptions.withBase` records only whether an adapter spreads them in. The YouTube and TikTok adapters and the callback's audio download do; the Likee adapter builds its options without them.
- yt-dlp itself, pydub decoding and export, the Shazam HTTP call, `os.path.exists`, `os.path.getsize`, `time.time()` and the environment are all parameters.
- The Telegram reply texts, photo replies, captions and the status message deletions are not modelled. Each handler returns the outcome it reaches instead; the reply formatting of `_reply_shazam_from_callback` (callback.py:72-94) is one of these.
- Removing the downloaded file after sending (`os.remove` in the `finally` blocks) is left out of the download handlers. `BotCallback.HandleMusicInstagram` does state its removals.
- The database is left out. `TelegramUser.objects.get` that finds no user becomes the flag `hasUser`. Other database errors, together with `file_size` and `completed_at` of a record, are not modelled.
- `process_download`'s choice between the callback message and the update message (download.py:127-136) is left out. The model always has a message.
- The `video_id` computed and never used at youtube_service.py:78 and tiktok_service.py:42 is left out.
- Durations are integers. Python's `int(seconds)` on a float duration is not modelled.
- The engine asks the lyrics search for 10 results, not its default of 5 (engine.py:32). The model uses the engine's 10.
- Media.SearchIffLiteral: `\w` is read as ASCII letters, digits and `_`, while Python's `\w` on `str` also matches other Unicode letters and digits. URL detection by the model therefore accepts a subset of what the code accepts.
- PyStr.ParseInt: `int()` is modelled with surrounding whitespace stripped, an optional `+` or `-` and ASCII digits. `_` digit separators and non-ASCII digits are not modelled; the callback data the bot builds never holds them.
- Spotify.ItemTrack: Python gives `None` for a track whose `name` is null (`t.get("name", "")`, spotify.py:95) and for a first artist whose `name` is missing or null (spotify.py:92). The model reads a missing or null name as no name, which gives "".
- BotCallback.HandleCancel: failures of the Telegram calls that the handlers do not catch are not modelled. For example, if `query.message.delete()` (callback.py:104) raised, `results` and `page` would stay in place, while the model always pops them.
- BotCallback.HandleSocial: `process_download` never raises in the model, so the handler's `except` (callback.py:311-313) is not reached.

## Findings

| source | as written | input that shows it | evidently intended | confidence | as-written member | corrected member |
|---|---|---|---|---|---|---|
| bot/handlers/callback.py:213-215 | `data.split('_', 2)` takes everything before the second `_` as the video id. YouTube ids use the base64url alphabet and may contain `_`. | an id `a_b` with quality `720` gives `ytdl_a_b_720`, read as id `a` and quality `b_720` | split off the quality at the last `_` | not executed | BotCallback.HandleYtdl | BotCallback.HandleYtdlIntended |
| bot/handlers/callback.py:118-120 | `build_search_keyboard(results, page=page)` passes `page` twice, because the function's only parameter is `page`. It raises TypeError after the page is stored, so a page turn never shows. | `page_0` with one stored result | `build_search_keyboard(page=page)` | not executed | BotCallback.HandlePage | BotCallback.HandlePageIntended |
| bot/handlers/callback.py:112 | `total_pages = (len(results) + 4) // 5` counts five results a page, while a page shows ten, so pages past the last non-empty one are accepted. | six results and `page_1`: accepted, with an empty page | `(len(results) + 9) // 10` | not executed | BotCallback.EmptyPageAccepted | BotCallback.ShowPageNonEmpty |
