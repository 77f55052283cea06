/**
 * `search_lyrics_fallback` (services/search/lyrics.py): one lyrics-biased
 * yt-dlp search; `None` entries and id-less entries are skipped, ids are not
 * de-duplicated, and an exception part-way keeps what was already appended.
 */
module Lyrics {
  import opened Wrappers
  import opened Tracks
  import PyStr

  /** The default `limit` of `search_lyrics_fallback`. */
  const DefaultLimit := 5

  /** The one search term: `ytsearch{limit}:{query} lyrics`. */
  function SearchTerm(q: string, limit: int): string
  {
    SearchPrefix(limit) + q + " lyrics"
  }

  /** A lyrics record: id, title, duration and url, with the same defaults as the YouTube search, and no artist. */
  function Record(e: Entry): (t: Track)
    ensures t.LyricsTrack? && t.id == e.id.GetOr("")
  {
    var vid := e.id.GetOr("");
    LyricsTrack(vid, Or(e.title, UnknownTitle), e.duration, EntryUrl(e, vid))
  }

  /** The records of a list of entries, one each, in order. */
  function Records(es: seq<Entry>): (ts: seq<Track>)
    ensures |ts| == |es|
    ensures forall i :: 0 <= i < |es| ==> ts[i] == Record(es[i])
  {
    if es == [] then [] else [Record(es[0])] + Records(es[1..])
  }

  /** `search_lyrics_fallback(query, limit)`, yt-dlp's answer to the search term given by `extract`. */
  function Search(query: string, limit: int, extract: string -> Extraction): (r: Outcome)
    ensures PyStr.IsBlank(query) <==> r.issued == []
    ensures PyStr.IsBlank(query) ==> r.out == []
    ensures !PyStr.IsBlank(query) ==>
              r.issued == [SearchTerm(PyStr.Strip(query), limit)] &&
              r.out == Records(UsableOf(extract(r.issued[0])))
  {
    PyStr.StripEmptyIffBlank(query);
    var q := PyStr.Strip(query);
    if q == "" then Outcome([], [])
    else
      var term := SearchTerm(q, limit);
      Outcome(Records(UsableOf(extract(term))), [term])
  }

  /** The search: a blank query issues no call; otherwise one call, whose usable entries all become records. */
  method SearchLyricsFallback(query: string, limit: int, extract: string -> Extraction)
    returns (out: seq<Track>, issued: seq<string>)
    ensures Outcome(out, issued) == Search(query, limit, extract)
  {
    PyStr.StripEmptyIffBlank(query);
    var q := PyStr.Strip(query);
    if q == "" {
      return [], [];
    }
    var searchTerm := SearchTerm(q, limit);
    issued := [searchTerm];
    var result := extract(searchTerm);
    if !result.Listing? {
      return [], issued;
    }
    out := CollectEntries(result.entries);
  }

  /** The entry loop, proved to keep exactly the usable entries seen before an element raises. */
  method CollectEntries(entries: seq<RawEntry>) returns (out: seq<Track>)
    ensures out == Records(Usable(entries))
  {
    out := [];
    var j := 0;
    while j < |entries|
      invariant 0 <= j <= |entries|
      invariant out + Records(Usable(entries[j..])) == Records(Usable(entries))
    {
      var entry := entries[j];
      assert entries[j..][0] == entry && entries[j..][1..] == entries[j + 1..];
      if entry.Faulty? {
        // the exception handler keeps what was appended so far
        assert out + [] == out;
        return;
      }
      var rest := Usable(entries[j + 1..]);
      if entry.Item? && Truthy(entry.entry.id) {
        assert Usable(entries[j..]) == [entry.entry] + rest;
        RecordsStep(out, entry.entry, rest);
        out := out + [Record(entry.entry)];
      } else {
        assert Usable(entries[j..]) == rest;
      }
      j := j + 1;
    }
    assert entries[j..] == [];
    assert out + [] == out;
  }

  /** One round of the entry loop, appending the record of a usable entry. */
  lemma RecordsStep(out: seq<Track>, e: Entry, rest: seq<Entry>)
    ensures out + Records([e] + rest) == (out + [Record(e)]) + Records(rest)
  {
    RecordsCons(e, rest);
  }

  lemma RecordsCons(e: Entry, es: seq<Entry>)
    ensures Records([e] + es) == [Record(e)] + Records(es)
  {
    assert ([e] + es)[1..] == es;
  }

  /** A backend result of `None`, or a call that raises, yields `[]`. */
  lemma NoResultIsEmpty(x: Extraction)
    requires !x.Listing?
    ensures Records(UsableOf(x)) == []
  {
  }

  /** An element that raises ends the loop: only the usable entries before it are kept. */
  lemma {:induction false} FaultKeepsPrefix(before: seq<RawEntry>, after: seq<RawEntry>)
    requires forall i :: 0 <= i < |before| ==> !before[i].Faulty?
    ensures Usable(before + [Faulty] + after) == Usable(before)
  {
    if before == [] {
      assert before + [Faulty] + after == [Faulty] + after;
    } else {
      assert (before + [Faulty] + after)[1..] == before[1..] + [Faulty] + after;
      FaultKeepsPrefix(before[1..], after);
    }
  }

  /** Ids are not de-duplicated: an id listed twice gives two records. */
  lemma DuplicatesKept(e: Entry)
    requires Truthy(e.id)
    ensures Records(Usable([Item(e), Item(e)])) == [Record(e), Record(e)]
  {
    assert Usable([Item(e), Item(e)]) == [e, e] by {
      assert [Item(e), Item(e)][1..] == [Item(e)];
    }
  }

  /** Every record has a non-empty id and no artist field. */
  lemma RecordsHaveIds(rs: seq<RawEntry>)
    ensures forall i :: 0 <= i < |Records(Usable(rs))| ==>
              Records(Usable(rs))[i].LyricsTrack? && Records(Usable(rs))[i].id != ""
  {
  }
}
