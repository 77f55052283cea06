/**
 * The search side of the bot (bot/handlers/search.py): the duration text,
 * the result page text, the result keyboard, and the tiers
 * `handle_search_request` answers with.
 */
module BotSearch {
  import opened Wrappers
  import opened Tracks
  import PyStr
  import Engine
  import opened Session
  import opened Keyboard

  // ---- format_duration ----

  /** `f'{n:02d}'` for `0 <= n < 100`. */
  function Pad2(n: nat): (r: string)
    requires n < 100
    ensures |r| == 2 && PyStr.AllDigits(r) && PyStr.DigitsValue(r) == n
  {
    var r := [PyStr.DigitChar(n / 10), PyStr.DigitChar(n % 10)];
    assert PyStr.IsDigit(r[0]) && PyStr.IsDigit(r[1]);
    var h := r[..1];
    assert h == [PyStr.DigitChar(n / 10)] && h[..0] == [];
    assert PyStr.DigitsValue(h) == n / 10;
    assert PyStr.DigitsValue(r) == PyStr.DigitsValue(h) * 10 + n % 10;
    r
  }

  /**
   * `format_duration(seconds)`: `0:00` for a missing or zero duration, else
   * `m:ss` with Python's floor division and modulo by 60 (for a positive
   * divisor they agree with Dafny's `/` and `%`).
   */
  function FormatDuration(seconds: Option<int>): (r: string)
    ensures |r| >= 4 && r[|r| - 3] == ':' && PyStr.AllDigits(r[|r| - 2..])
  {
    if seconds.None? || seconds.value == 0 then "0:00"
    else
      var s := seconds.value;
      var m, p := PyStr.IntToString(s / 60), Pad2(s % 60);
      assert (m + ":" + p)[|m| + 1..] == p;
      m + ":" + p
  }

  /** The text ends in `:` and two digits below 60; a missing or zero duration is `0:00`. */
  lemma DurationShape(seconds: Option<int>)
    ensures var r := FormatDuration(seconds);
            |r| >= 4 && r[|r| - 3] == ':' &&
            PyStr.AllDigits(r[|r| - 2..]) && PyStr.DigitsValue(r[|r| - 2..]) < 60
    ensures seconds.None? || seconds == Some(0) ==> FormatDuration(seconds) == "0:00"
  {
    var x, y := DurationParts(seconds);
    ColonParts(PyStr.IntToString(x), Pad2(y));
  }

  /** Every duration text, `0:00` included, is the minutes, a colon and two digits of seconds. */
  lemma DurationParts(seconds: Option<int>) returns (x: int, y: nat)
    ensures y < 60 && x * 60 + y == seconds.GetOr(0)
    ensures FormatDuration(seconds) == PyStr.IntToString(x) + ":" + Pad2(y)
  {
    x, y := MinutesSeconds(seconds.GetOr(0));
    if seconds.None? || seconds.value == 0 {
      Zero();
    }
  }

  /** Different durations give different texts: the text determines the duration (0 when it is missing). */
  lemma DurationInjective(a: Option<int>, b: Option<int>)
    requires FormatDuration(a) == FormatDuration(b)
    ensures a.GetOr(0) == b.GetOr(0)
  {
    var x1, y1 := DurationParts(a);
    var x2, y2 := DurationParts(b);
    SplitEqual(PyStr.IntToString(x1), Pad2(y1), PyStr.IntToString(x2), Pad2(y2));
    PyStr.IntToStringInjective(x1, x2);
  }

  /** Two `m:pp` texts that are equal have equal parts. */
  lemma SplitEqual(m1: string, p1: string, m2: string, p2: string)
    requires |p1| == 2 && |p2| == 2 && m1 + ":" + p1 == m2 + ":" + p2
    ensures m1 == m2 && p1 == p2
  {
    ColonParts(m1, p1);
    ColonParts(m2, p2);
  }

  /** `0:00` is zero minutes and zero seconds. */
  lemma Zero()
    ensures "0:00" == PyStr.IntToString(0) + ":" + Pad2(0)
  {
    assert PyStr.IntToString(0) == "0";
  }

  /** The colon of `m:pp` is three from the end, with `m` before it and `pp` after it. */
  lemma ColonParts(m: string, p: string)
    requires |p| == 2
    ensures var t := m + ":" + p;
            |t| >= 3 && t[|t| - 3] == ':' && t[|t| - 2..] == p && t[..|t| - 3] == m
  {
    var t := m + ":" + p;
    assert t[|t| - 2..] == p;
    assert t[..|t| - 3] == m;
  }

  /** Floor division and modulo by 60 split a number of seconds into minutes and seconds. */
  lemma MinutesSeconds(s: int) returns (x: int, y: nat)
    ensures x == s / 60 && y == s % 60 && y < 60 && x * 60 + y == s
  {
    x, y := s / 60, s % 60;
  }

  // ---- format_results ----

  /** One result line: `{num}. {title} {duration}`. */
  function ResultLine(num: int, t: Track): string
  {
    PyStr.IntToString(num) + ". " + t.title + " " + FormatDuration(t.DurationField())
  }

  /** `f(first + i, ts[i])` for each index `i` of `ts`, in order. */
  function Numbered(ts: seq<Track>, first: int, f: (int, Track) -> string): (lines: seq<string>)
    ensures |lines| == |ts|
    ensures forall i :: 0 <= i < |ts| ==> lines[i] == f(first + i, ts[i])
  {
    if ts == [] then []
    else
      var rest := Numbered(ts[1..], first + 1, f);
      var lines := [f(first, ts[0])] + rest;
      forall i | 1 <= i < |ts| ensures lines[i] == f(first + i, ts[i]) {
        assert lines[i] == rest[i - 1] && ts[1..][i - 1] == ts[i] && first + 1 + (i - 1) == first + i;
      }
      lines
  }

  /** The lines of `ts`, numbered from `first`. */
  function Lines(ts: seq<Track>, first: int): (lines: seq<string>)
    ensures |lines| == |ts|
    ensures forall i :: 0 <= i < |ts| ==> lines[i] == ResultLine(first + i, ts[i])
  {
    Numbered(ts, first, ResultLine)
  }

  /** The lines of page `page`: `results[page*10 : page*10+10]`, numbered from `page*10 + 1`. */
  function PageLines(results: seq<Track>, page: int): seq<string>
  {
    Lines(PyStr.PySlice(results, page * 10, page * 10 + 10), page * 10 + 1)
  }

  /** `format_results(results, page)`. */
  function ResultsText(results: seq<Track>, page: int): string
  {
    PyStr.Join("\n", PageLines(results, page))
  }

  /** `format_results`: the page slice, its numbered lines, joined by newlines. */
  method FormatResults(results: seq<Track>, page: int) returns (text: string)
    ensures text == ResultsText(results, page)
  {
    var start := page * 10;
    var pageResults := PyStr.PySlice(results, start, start + 10);
    var lines := NumberLines(pageResults, start + 1, ResultLine);
    text := PyStr.Join("\n", lines);
  }

  /** The `enumerate` loop of `format_results`, `render` being the line's f-string. */
  method NumberLines(items: seq<Track>, first: int, render: (int, Track) -> string) returns (lines: seq<string>)
    ensures lines == Numbered(items, first, render)
  {
    lines := [];
    var i := 0;
    while i < |items|
      invariant 0 <= i <= |items| && |lines| == i
      invariant forall j :: 0 <= j < i ==> lines[j] == render(first + j, items[j])
    {
      lines := lines + [render(first + i, items[i])];
      i := i + 1;
    }
  }

  /**
   * A page that is not negative shows at most ten lines: the items from
   * `page*10` on, numbered from `page*10 + 1`; a page past the end shows nothing.
   */
  lemma PageWindow(results: seq<Track>, page: nat)
    ensures var lines := PageLines(results, page);
            |lines| <= 10 &&
            |lines| == (if page * 10 >= |results| then 0 else if |results| - page * 10 < 10 then |results| - page * 10 else 10) &&
            forall i :: 0 <= i < |lines| ==> lines[i] == ResultLine(page * 10 + i + 1, results[page * 10 + i])
    ensures page * 10 >= |results| ==> ResultsText(results, page) == ""
  {
    var s := PyStr.PySlice(results, page * 10, page * 10 + 10);
    var lines := PageLines(results, page);
    if page * 10 < |results| {
      var hi := if |results| - page * 10 < 10 then |results| else page * 10 + 10;
      assert s == results[page * 10..hi];
      forall i | 0 <= i < |lines| ensures lines[i] == ResultLine(page * 10 + i + 1, results[page * 10 + i]) {
        assert s[i] == results[page * 10 + i];
      }
    } else {
      PastEndEmpty(results, page);
    }
  }

  /** A page at or past the end has no lines, so its text is empty. */
  lemma PastEndEmpty(results: seq<Track>, page: nat)
    requires page * 10 >= |results|
    ensures PageLines(results, page) == [] && ResultsText(results, page) == ""
  {
    assert PyStr.PySlice(results, page * 10, page * 10 + 10) == [];
  }

  // ---- build_search_keyboard ----

  /** The select button of result index `n`: shows `n + 1`, sends `select_{n}`. */
  function SelectButton(n: int): Button
  {
    Button(PyStr.IntToString(n + 1), "select_" + PyStr.IntToString(n))
  }

  const Back := "\U{2B05}\U{FE0F}"
  const Close := "\U{274C}"
  const Forward := "\U{27A1}\U{FE0F}"

  /** A navigation button: sends `page_{n}`. */
  function PageButton(icon: string, n: int): Button
  {
    Button(icon, "page_" + PyStr.IntToString(n))
  }

  /** The navigation row: previous page, cancel, next page. */
  function NavRow(page: int): (row: seq<Button>)
    ensures |row| == 3 && row[0] == PageButton(Back, page - 1) && row[1] == Button(Close, "cancel") &&
            row[2] == PageButton(Forward, page + 1)
  {
    [PageButton(Back, page - 1), Button(Close, "cancel"), PageButton(Forward, page + 1)]
  }

  /** Five select buttons for the indices `start .. start+4`. */
  function SelectRow(start: int): (row: seq<Button>)
    ensures |row| == 5 && forall i :: 0 <= i < 5 ==> row[i] == SelectButton(start + i)
  {
    seq(5, i => SelectButton(start + i))
  }

  /**
   * `build_search_keyboard(page)`: two rows of five select buttons for the
   * indices `page*10 .. page*10+9`, whatever the number of results, then
   * the navigation row.
   */
  function BuildSearchKeyboard(page: int): (rows: seq<seq<Button>>)
    ensures |rows| == 3 && |rows[0]| == 5 && |rows[1]| == 5
    ensures forall i :: 0 <= i < 5 ==> rows[0][i] == SelectButton(page * 10 + i)
    ensures forall i :: 0 <= i < 5 ==> rows[1][i] == SelectButton(page * 10 + 5 + i)
    ensures rows[2] == NavRow(page)
  {
    [SelectRow(page * 10), SelectRow(page * 10 + 5), NavRow(page)]
  }

  // ---- handle_search_request ----

  /** Which source the reply comes from. */
  datatype Tier = YouTubeTier | SpotifyTier | LyricsTier | NothingTier

  /** `spotify and spotify[0].get("url")`. */
  predicate SpotifyLink(sp: seq<Track>)
  {
    |sp| > 0 && sp[0].url != ""
  }

  /** The first tier that has something to show. */
  function TierOf(r: Engine.MultiSearchResult): (t: Tier)
    ensures t == YouTubeTier <==> r.youtube != []
    ensures t == SpotifyTier <==> r.youtube == [] && SpotifyLink(r.spotify)
    ensures t == LyricsTier <==> r.youtube == [] && !SpotifyLink(r.spotify) && r.lyrics != []
    ensures t == NothingTier <==> r.youtube == [] && !SpotifyLink(r.spotify) && r.lyrics == []
  {
    if r.youtube != [] then YouTubeTier
    else if SpotifyLink(r.spotify) then SpotifyTier
    else if r.lyrics != [] then LyricsTier
    else NothingTier
  }

  /** What the user is sent. */
  datatype SearchReply =
    | AskForQuery                                            // empty query: a prompt, no search
    | ResultPage(tier: Tier, text: string, keyboard: seq<seq<Button>>, spotifyExtra: Option<Track>)
    | SpotifyLinkOnly(best: Track)
    | Guidance                                               // nothing found

  /** The list the tier stores as `results`, if any. */
  function StoredList(r: Engine.MultiSearchResult): (o: Option<seq<Track>>)
    ensures o.Some? <==> TierOf(r) == YouTubeTier || TierOf(r) == LyricsTier
    ensures o.Some? ==> o.value != [] && o.value == (if TierOf(r) == YouTubeTier then r.youtube else r.lyrics)
  {
    match TierOf(r)
    case YouTubeTier => Some(r.youtube)
    case LyricsTier => Some(r.lyrics)
    case _ => None
  }

  /** The session after the reply: a stored list goes under `results`, with `page` 0. */
  function SessionAfter(slots: seq<Slot>, r: Engine.MultiSearchResult): seq<Slot>
  {
    var o := StoredList(r);
    if o.Some? then Put(Put(slots, "results", TrackList(o.value)), "page", PageNumber(0)) else slots
  }

  /** The reply of a non-empty query. */
  function ReplyFor(r: Engine.MultiSearchResult): SearchReply
  {
    match TierOf(r)
    case YouTubeTier =>
      ResultPage(YouTubeTier, ResultsText(r.youtube, 0), BuildSearchKeyboard(0),
                 if SpotifyLink(r.spotify) then Some(r.spotify[0]) else None)
    case SpotifyTier => SpotifyLinkOnly(r.spotify[0])
    case LyricsTier => ResultPage(LyricsTier, ResultsText(r.lyrics, 0), BuildSearchKeyboard(0), None)
    case NothingTier => Guidance
  }

  /**
   * The tiers: YouTube results are stored and shown (with the Spotify link as
   * an extra); otherwise a Spotify link is shown and nothing is stored;
   * otherwise lyrics results are stored and shown; otherwise the guidance.
   * Only the keys `results` and `page` change, and only when a list is shown.
   */
  lemma {:induction false} TierPrecedence(slots: seq<Slot>, r: Engine.MultiSearchResult, k: string)
    ensures var s := SessionAfter(slots, r);
            Get(s, k) == (if StoredList(r).Some? && k == "results" then Some(TrackList(StoredList(r).value))
                          else if StoredList(r).Some? && k == "page" then Some(PageNumber(0))
                          else Get(slots, k))
    ensures r.youtube != [] ==> ReplyFor(r).ResultPage? && ReplyFor(r).tier == YouTubeTier &&
                                (ReplyFor(r).spotifyExtra.Some? <==> SpotifyLink(r.spotify))
    ensures r.youtube == [] && SpotifyLink(r.spotify) ==> ReplyFor(r) == SpotifyLinkOnly(r.spotify[0]) && SessionAfter(slots, r) == slots
    ensures r.youtube == [] && !SpotifyLink(r.spotify) && r.lyrics != [] ==>
              ReplyFor(r).ResultPage? && ReplyFor(r).tier == LyricsTier
    ensures r.youtube == [] && !SpotifyLink(r.spotify) && r.lyrics == [] ==> ReplyFor(r) == Guidance
  {
    if StoredList(r).Some? {
      var s1 := Put(slots, "results", TrackList(StoredList(r).value));
      GetPut(s1, "page", PageNumber(0), k);
      GetPut(slots, "results", TrackList(StoredList(r).value), k);
    }
  }

  /** The number logged as `results_count`: all three lists. */
  function ResultsCount(r: Engine.MultiSearchResult): nat
  {
    |r.youtube| + |r.spotify| + |r.lyrics|
  }

  /**
   * `handle_search_request(query)`, the search being `multi_search_text`. An
   * empty query gets a prompt and runs no search; otherwise one search, one
   * log entry with the total count, and the tier reply.
   */
  method HandleSearchRequest(ud: UserData, query: string, search: string -> Engine.MultiSearchResult)
    returns (reply: SearchReply, logged: Option<nat>)
    requires ud.Valid()
    modifies ud
    ensures ud.Valid()
    ensures query == "" ==> reply == AskForQuery && logged.None? && ud.slots == old(ud.slots)
    ensures query != "" ==> logged == Some(ResultsCount(search(query))) && reply == ReplyFor(search(query)) &&
                            ud.slots == SessionAfter(old(ud.slots), search(query))
  {
    if query == "" {
      return AskForQuery, None;
    }
    var r := search(query);
    logged := Some(|r.youtube| + |r.spotify| + |r.lyrics|);
    if r.youtube != [] {
      assert TierOf(r) == YouTubeTier && StoredList(r) == Some(r.youtube);
      ud.Set("results", TrackList(r.youtube));
      ud.Set("page", PageNumber(0));
      var text := FormatResults(r.youtube, 0);
      var extra := if |r.spotify| > 0 && r.spotify[0].url != "" then Some(r.spotify[0]) else None;
      return ResultPage(YouTubeTier, text, BuildSearchKeyboard(0), extra), logged;
    }
    if |r.spotify| > 0 && r.spotify[0].url != "" {
      assert TierOf(r) == SpotifyTier && StoredList(r).None?;
      return SpotifyLinkOnly(r.spotify[0]), logged;
    }
    if r.lyrics != [] {
      assert TierOf(r) == LyricsTier && StoredList(r) == Some(r.lyrics);
      ud.Set("results", TrackList(r.lyrics));
      ud.Set("page", PageNumber(0));
      var text := FormatResults(r.lyrics, 0);
      return ResultPage(LyricsTier, text, BuildSearchKeyboard(0), None), logged;
    }
    assert TierOf(r) == NothingTier && StoredList(r).None?;
    return Guidance, logged;
  }
}
