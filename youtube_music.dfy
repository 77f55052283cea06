/**
 * `search_youtube_music` (services/search/youtube_music.py): five
 * music-biased query variants tried in a fixed order against yt-dlp's flat
 * search, de-duplicated by video id, stopping at `limit` records; a variant
 * whose call raises contributes what it collected before raising and the
 * later variants are still tried.
 */
module YouTubeMusic {
  import opened Wrappers
  import opened Tracks
  import PyStr

  /** The suffixes of the query variants, in the order they are tried. */
  const VariantSuffixes: seq<string> := [" audio", " official audio", "", " music", " song"]

  /** `base` followed by each suffix in turn. */
  function Suffixed(base: string, ss: seq<string>): (vs: seq<string>)
    ensures |vs| == |ss| && forall i :: 0 <= i < |ss| ==> vs[i] == base + ss[i]
  {
    if ss == [] then [] else [base + ss[0]] + Suffixed(base, ss[1..])
  }

  /** The query variants in the order they are tried, each with the `ytsearch{limit}:` prefix. */
  function Variants(q: string, limit: int): (vs: seq<string>)
    ensures |vs| == 5
    ensures forall i :: 0 <= i < 5 ==> vs[i] == SearchPrefix(limit) + q + VariantSuffixes[i]
  {
    Suffixed(SearchPrefix(limit) + q, VariantSuffixes)
  }

  /** The de-duplication key of an entry (`entry.get("id", "")`, missing treated as ""). */
  function Key(e: Entry): string
  {
    e.id.GetOr("")
  }

  /** The record built from an entry, with the source's field defaults. */
  function Record(e: Entry): (t: Track)
    ensures t.YouTubeTrack? && t.id == Key(e)
  {
    YouTubeTrack(Key(e), Or(e.title, UnknownTitle), Or(e.channel, Or(e.uploader, "")),
                 e.duration, EntryUrl(e, Key(e)))
  }

  /** The loop state: the `out` list and the `seen` set. */
  datatype Progress = Progress(out: seq<Track>, seen: set<string>)

  /**
   * One variant's entry loop from state `p`: `None` entries and id-less
   * entries are skipped, known ids are skipped, and the loop ends at an
   * element that raises or as soon as `limit` records are collected.
   */
  function Absorb(rs: seq<RawEntry>, p: Progress, limit: int): Progress
    decreases |rs|
  {
    if rs == [] || rs[0].Faulty? then p
    else if !HasId(rs[0]) || Key(rs[0].entry) in p.seen then Absorb(rs[1..], p, limit)
    else
      var q := Progress(p.out + [Record(rs[0].entry)], p.seen + {Key(rs[0].entry)});
      if |q.out| >= limit then q else Absorb(rs[1..], q, limit)
  }

  /** The variant loop: a variant is sent only while fewer than `limit` records are collected. */
  function RunVariants(vs: seq<string>, extract: string -> Extraction, p: Progress, limit: int,
                       issued: seq<string>): Outcome
    decreases |vs|
  {
    if vs == [] || |p.out| >= limit then Outcome(p.out, issued)
    else
      var x := extract(vs[0]);
      var p' := if x.Listing? then Absorb(x.entries, p, limit) else p;
      RunVariants(vs[1..], extract, p', limit, issued + [vs[0]])
  }

  /** `search_youtube_music(query, limit)`, yt-dlp's answer to each search term given by `extract`. */
  function Search(query: string, limit: int, extract: string -> Extraction): Outcome
  {
    var q := PyStr.Strip(query);
    if q == "" then Outcome([], [])
    else RunVariants(Variants(q, limit), extract, Progress([], {}), limit, [])
  }

  /** The inner `for entry in entries` loop of one variant, proved to compute `Absorb`. */
  method AbsorbEntries(entries: seq<RawEntry>, out0: seq<Track>, seen0: set<string>, limit: int)
    returns (out: seq<Track>, seen: set<string>)
    ensures Progress(out, seen) == Absorb(entries, Progress(out0, seen0), limit)
  {
    out, seen := out0, seen0;
    var j := 0;
    while j < |entries|
      invariant 0 <= j <= |entries|
      invariant Absorb(entries[j..], Progress(out, seen), limit) == Absorb(entries, Progress(out0, seen0), limit)
    {
      var entry := entries[j];
      assert entries[j..][0] == entry && entries[j..][1..] == entries[j + 1..];
      if entry.Faulty? {
        // the exception handler moves on to the next variant
        return;
      }
      if entry.Item? && Truthy(entry.entry.id) && entry.entry.id.value !in seen {
        seen := seen + {entry.entry.id.value};
        out := out + [Record(entry.entry)];
        if |out| >= limit {
          return;
        }
      }
      j := j + 1;
    }
  }

  /** The loops of `search_youtube_music`, proved to compute `Search`. */
  method SearchYouTubeMusic(query: string, limit: int, extract: string -> Extraction)
    returns (out: seq<Track>, issued: seq<string>)
    ensures Outcome(out, issued) == Search(query, limit, extract)
  {
    var q := PyStr.Strip(query);
    if q == "" {
      return [], [];
    }
    out, issued := TryVariants(Variants(q, limit), extract, limit);
  }

  /** The outer `for sq in search_queries` loop, stopping once `limit` records are collected. */
  method TryVariants(searchQueries: seq<string>, extract: string -> Extraction, limit: int)
    returns (out: seq<Track>, issued: seq<string>)
    ensures Outcome(out, issued) == RunVariants(searchQueries, extract, Progress([], {}), limit, [])
  {
    var seen: set<string> := {};
    out, issued := [], [];
    var i := 0;
    while i < |searchQueries|
      invariant 0 <= i <= |searchQueries|
      invariant RunVariants(searchQueries[i..], extract, Progress(out, seen), limit, issued)
             == RunVariants(searchQueries, extract, Progress([], {}), limit, [])
    {
      if |out| >= limit {
        break;
      }
      var sq := searchQueries[i];
      RunStep(searchQueries[i..], extract, Progress(out, seen), limit, issued);
      assert searchQueries[i..][0] == sq && searchQueries[i..][1..] == searchQueries[i + 1..];
      issued := issued + [sq];
      var result := extract(sq);
      if result.Listing? {
        out, seen := AbsorbEntries(result.entries, out, seen, limit);
      }
      i := i + 1;
    }
  }

  /** One round of the variant loop. */
  lemma RunStep(vs: seq<string>, extract: string -> Extraction, p: Progress, limit: int, issued: seq<string>)
    requires vs != [] && |p.out| < limit
    ensures RunVariants(vs, extract, p, limit, issued)
         == RunVariants(vs[1..], extract, if extract(vs[0]).Listing? then Absorb(extract(vs[0]).entries, p, limit) else p,
                        limit, issued + [vs[0]])
  {
  }

  // ---------------------------------------------------------------------------
  // A reference definition: the first occurrences, by id, of all usable
  // entries of all five variants, cut at `limit`.

  /** The ids of a list of entries. */
  function Ids(es: seq<Entry>): set<string>
  {
    if es == [] then {} else {Key(es[0])} + Ids(es[1..])
  }

  /** The records of the first occurrence of each id not in `seen`, in order. */
  function Dedup(es: seq<Entry>, seen: set<string>): seq<Track>
  {
    if es == [] then []
    else if Key(es[0]) in seen then Dedup(es[1..], seen)
    else [Record(es[0])] + Dedup(es[1..], seen + {Key(es[0])})
  }

  /** Python's `ts[:n]` for the list of collected records; nothing for `n <= 0`. */
  function TakeN(ts: seq<Track>, n: int): (r: seq<Track>)
    ensures |r| <= |ts| && r <= ts
    ensures n <= 0 ==> r == []
    ensures 0 < n ==> |r| == if n < |ts| then n else |ts|
  {
    if n <= 0 then [] else if n < |ts| then ts[..n] else ts
  }

  /** All usable entries of all the given variants, in the order they are tried. */
  function AllUsable(vs: seq<string>, extract: string -> Extraction): seq<Entry>
  {
    if vs == [] then [] else UsableOf(extract(vs[0])) + AllUsable(vs[1..], extract)
  }

  lemma {:induction false} DedupAppend(xs: seq<Entry>, ys: seq<Entry>, seen: set<string>)
    ensures Dedup(xs + ys, seen) == Dedup(xs, seen) + Dedup(ys, seen + Ids(xs))
  {
    if xs == [] {
      assert xs + ys == ys && seen + Ids(xs) == seen;
    } else {
      assert (xs + ys)[0] == xs[0] && (xs + ys)[1..] == xs[1..] + ys;
      if Key(xs[0]) in seen {
        DedupAppend(xs[1..], ys, seen);
        assert seen + Ids(xs) == seen + Ids(xs[1..]);
      } else {
        DedupAppend(xs[1..], ys, seen + {Key(xs[0])});
        assert seen + {Key(xs[0])} + Ids(xs[1..]) == seen + Ids(xs);
      }
    }
  }

  lemma TakeNLonger(a: seq<Track>, b: seq<Track>, n: int)
    requires |a| >= n
    ensures TakeN(a + b, n) == TakeN(a, n)
  {
    if 0 < n {
      assert (a + b)[..n] == a[..n];
    }
  }

  /** The entry loop from a state with room left computes the cut first occurrences. */
  lemma {:induction false} AbsorbIsDedup(rs: seq<RawEntry>, p: Progress, limit: int)
    requires |p.out| < limit
    ensures |Absorb(rs, p, limit).out| <= limit
    ensures Absorb(rs, p, limit).out == TakeN(p.out + Dedup(Usable(rs), p.seen), limit)
    ensures |Absorb(rs, p, limit).out| < limit ==>
              Absorb(rs, p, limit).out == p.out + Dedup(Usable(rs), p.seen) &&
              Absorb(rs, p, limit).seen == p.seen + Ids(Usable(rs))
    decreases |rs|
  {
    if rs == [] || rs[0].Faulty? {
      assert p.out + [] == p.out;
    } else if !HasId(rs[0]) {
      AbsorbIsDedup(rs[1..], p, limit);
    } else {
      var e := rs[0].entry;
      var u := Usable(rs[1..]);
      assert Usable(rs) == [e] + u;
      assert Ids([e] + u) == {Key(e)} + Ids(u) by { assert ([e] + u)[1..] == u; }
      assert Dedup([e] + u, p.seen) == if Key(e) in p.seen then Dedup(u, p.seen)
                                       else [Record(e)] + Dedup(u, p.seen + {Key(e)}) by {
        assert ([e] + u)[0] == e && ([e] + u)[1..] == u;
      }
      if Key(e) in p.seen {
        AbsorbIsDedup(rs[1..], p, limit);
      } else {
        var q := Progress(p.out + [Record(e)], p.seen + {Key(e)});
        assert p.out + ([Record(e)] + Dedup(u, q.seen)) == q.out + Dedup(u, q.seen);
        if |q.out| >= limit {
          TakeNLonger(q.out, Dedup(u, q.seen), limit);
        } else {
          AbsorbIsDedup(rs[1..], q, limit);
        }
      }
    }
  }

  /** The variant loop computes the cut first occurrences over all variants it may try. */
  lemma {:induction false} RunIsDedup(vs: seq<string>, extract: string -> Extraction, p: Progress,
                                      limit: int, issued: seq<string>)
    requires |p.out| <= (if limit < 0 then 0 else limit)
    ensures RunVariants(vs, extract, p, limit, issued).out
         == TakeN(p.out + Dedup(AllUsable(vs, extract), p.seen), limit)
    decreases |vs|
  {
    var all := Dedup(AllUsable(vs, extract), p.seen);
    if vs == [] {
      assert p.out + [] == p.out;
    } else if |p.out| >= limit {
      TakeNLonger(p.out, all, limit);
    } else {
      var x := extract(vs[0]);
      var u := UsableOf(x);
      var rest := AllUsable(vs[1..], extract);
      DedupAppend(u, rest, p.seen);
      var p' := if x.Listing? then Absorb(x.entries, p, limit) else p;
      var tail := Dedup(rest, p.seen + Ids(u));
      if x.Listing? {
        AbsorbIsDedup(x.entries, p, limit);
      } else {
        assert u == [] && p' == p && p.out + Dedup(u, p.seen) == p.out && p.seen + Ids(u) == p.seen;
      }
      RunIsDedup(vs[1..], extract, p', limit, issued + [vs[0]]);
      CombineRound(p.out, Dedup(u, p.seen), p'.out, Dedup(rest, p'.seen), tail, limit);
    }
  }

  /**
   * One round of the variant loop, in the cut first occurrences: a round
   * that leaves room left its records and ids in place, one that filled up
   * is where the cut falls.
   */
  lemma CombineRound(before: seq<Track>, found: seq<Track>, after: seq<Track>,
                     next: seq<Track>, later: seq<Track>, limit: int)
    requires after == TakeN(before + found, limit)
    requires |after| < limit ==> after == before + found && next == later
    ensures TakeN(after + next, limit) == TakeN(before + (found + later), limit)
  {
    assert before + (found + later) == (before + found) + later;
    if |after| >= limit {
      TakeNLonger(after, next, limit);
      TakeNLonger(before + found, later, limit);
    }
  }

  /**
   * The result is the first occurrence of each usable id over the variants
   * in priority order (entries in backend order), cut at `limit`.
   */
  lemma SearchIsFirstOccurrences(query: string, limit: int, extract: string -> Extraction)
    requires !PyStr.IsBlank(query)
    ensures Search(query, limit, extract).out
         == TakeN(Dedup(AllUsable(Variants(PyStr.Strip(query), limit), extract), {}), limit)
  {
    PyStr.StripEmptyIffBlank(query);
    RunIsDedup(Variants(PyStr.Strip(query), limit), extract, Progress([], {}), limit, []);
  }

  lemma {:induction false} DedupDistinct(es: seq<Entry>, seen: set<string>)
    ensures forall i :: 0 <= i < |Dedup(es, seen)| ==>
              Dedup(es, seen)[i].YouTubeTrack? && Dedup(es, seen)[i].id !in seen
    ensures forall i, j :: 0 <= i < j < |Dedup(es, seen)| ==> Dedup(es, seen)[i].id != Dedup(es, seen)[j].id
  {
    if es != [] {
      if Key(es[0]) in seen {
        DedupDistinct(es[1..], seen);
      } else {
        DedupDistinct(es[1..], seen + {Key(es[0])});
      }
    }
  }

  lemma {:induction false} DedupUsableIds(es: seq<Entry>, seen: set<string>)
    requires forall i :: 0 <= i < |es| ==> Truthy(es[i].id)
    ensures forall i :: 0 <= i < |Dedup(es, seen)| ==>
              Dedup(es, seen)[i].YouTubeTrack? && Dedup(es, seen)[i].id != ""
  {
    if es != [] {
      DedupUsableIds(es[1..], if Key(es[0]) in seen then seen else seen + {Key(es[0])});
    }
  }

  lemma {:induction false} AllUsableIds(vs: seq<string>, extract: string -> Extraction)
    ensures forall i :: 0 <= i < |AllUsable(vs, extract)| ==> Truthy(AllUsable(vs, extract)[i].id)
  {
    if vs != [] {
      AllUsableIds(vs[1..], extract);
    }
  }

  /** A blank or whitespace query returns `[]` and sends no search term at all. */
  lemma BlankQuerySearchesNothing(query: string, limit: int, extract: string -> Extraction)
    requires PyStr.IsBlank(query)
    ensures Search(query, limit, extract) == Outcome([], [])
  {
    PyStr.StripEmptyIffBlank(query);
  }

  /**
   * At most `limit` records; every id is non-empty; ids are pairwise
   * distinct; every record is a YouTube record.
   */
  lemma SearchRecordsDistinct(query: string, limit: int, extract: string -> Extraction)
    ensures var out := Search(query, limit, extract).out;
      |out| <= (if limit < 0 then 0 else limit) &&
      (forall i :: 0 <= i < |out| ==> out[i].YouTubeTrack? && out[i].id != "") &&
      (forall i, j :: 0 <= i < j < |out| ==> out[i].id != out[j].id)
  {
    if !PyStr.IsBlank(query) {
      SearchIsFirstOccurrences(query, limit, extract);
      var all := AllUsable(Variants(PyStr.Strip(query), limit), extract);
      DedupDistinct(all, {});
      AllUsableIds(Variants(PyStr.Strip(query), limit), extract);
      DedupUsableIds(all, {});
    } else {
      BlankQuerySearchesNothing(query, limit, extract);
    }
  }

  lemma {:induction false} RunIssued(vs: seq<string>, extract: string -> Extraction, p: Progress, limit: int,
                                     issued: seq<string>)
    ensures var r := RunVariants(vs, extract, p, limit, issued);
      |issued| <= |r.issued| <= |issued| + |vs| &&
      r.issued == issued + vs[..|r.issued| - |issued|] &&
      (|r.issued| < |issued| + |vs| ==> |r.out| >= limit) &&
      (|r.issued| == |issued| ==> vs == [] || |p.out| >= limit)
    decreases |vs|
  {
    if vs != [] && |p.out| < limit {
      var x := extract(vs[0]);
      var p' := if x.Listing? then Absorb(x.entries, p, limit) else p;
      RunIssued(vs[1..], extract, p', limit, issued + [vs[0]]);
      var r := RunVariants(vs, extract, p, limit, issued);
      var k := |r.issued| - |issued|;
      assert vs[..k] == [vs[0]] + vs[1..][..k - 1];
    }
  }

  /**
   * The variants are sent in their fixed order, each as the stripped query
   * with the `ytsearch{limit}:` prefix; a variant is left out only once
   * `limit` records are collected; with a positive limit the first variant
   * is always sent.
   */
  lemma SearchIssuesVariantsInOrder(query: string, limit: int, extract: string -> Extraction)
    requires !PyStr.IsBlank(query)
    ensures var r := Search(query, limit, extract);
      var vs := Variants(PyStr.Strip(query), limit);
      |r.issued| <= 5 && r.issued == vs[..|r.issued|] &&
      (|r.issued| < 5 ==> |r.out| >= limit) &&
      (limit > 0 ==> |r.issued| >= 1)
  {
    PyStr.StripEmptyIffBlank(query);
    var vs := Variants(PyStr.Strip(query), limit);
    RunIssued(vs, extract, Progress([], {}), limit, []);
    assert Search(query, limit, extract) == RunVariants(vs, extract, Progress([], {}), limit, []);
  }
}
