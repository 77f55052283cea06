/**
 * services/shazam/service.py: the song recogniser. It cuts a twelve-second
 * window out of the middle of the audio, sends it to Shazam and shapes the
 * reply into the result the handlers show and log. Decoding, the export,
 * the file system and the Shazam call are parameters.
 */
module Shazam {
  import opened Wrappers
  import PyStr

  /** The snippet length in milliseconds. */
  const TargetMs := 12000

  /**
   * Lines 38-46: the `[start, end)` window, in milliseconds, of an audio of
   * `duration` milliseconds. A short audio is kept whole; a long one is cut
   * to twelve seconds, centred so that the parts cut off before and after
   * differ by at most one millisecond.
   */
  function SnippetWindow(duration: nat): (w: (nat, nat))
    ensures w.0 <= w.1 <= duration
    ensures duration <= TargetMs ==> w == (0, duration)
    ensures duration > TargetMs ==> w.1 - w.0 == TargetMs && 0 <= (duration - w.1) - w.0 <= 1
  {
    if duration <= TargetMs then (0, duration)
    else
      var start := if (duration - TargetMs) / 2 > 0 then (duration - TargetMs) / 2 else 0;
      (start, start + TargetMs)
  }

  /** The samples of the window, one per millisecond: never more than twelve seconds, and all of a short audio. */
  function Cut<S>(audio: seq<S>): (r: seq<S>)
    ensures |r| == if |audio| <= TargetMs then |audio| else TargetMs
    ensures |audio| <= TargetMs ==> r == audio
    ensures |audio| > TargetMs ==> r == audio[(|audio| - TargetMs) / 2..(|audio| - TargetMs) / 2 + TargetMs]
  {
    var w := SnippetWindow(|audio|);
    audio[w.0..w.1]
  }

  /** Line 51: `shazam_snippet_{pid}_{basename}.wav` in the temporary directory. */
  function SnippetPath(tmpDir: string, pid: string, filePath: string): string
  {
    tmpDir + "/shazam_snippet_" + pid + "_" + PyStr.Basename(filePath) + ".wav"
  }

  /** What `_prepare_snippet` leaves behind. */
  datatype Snippet =
    | NoInput                                     // the input file does not exist
    | Original                                    // decoding or the export raised: the input itself
    | Exported(path: string, samples: seq<int>)   // the window, written as a WAV file

  /** The path `_prepare_snippet` returns. */
  function SnippetFile(s: Snippet, filePath: string): (r: Option<string>)
  {
    match s
    case NoInput => None
    case Original => Some(filePath)
    case Exported(path, _) => Some(path)
  }

  /**
   * Lines 31-56, where `decoded` is `AudioSegment.from_file` (none when it
   * raises) and `exportOk` says whether the export succeeded. Decoding or
   * export trouble falls back to the input file.
   */
  function PrepareSnippet(filePath: string, inputExists: bool, decoded: Option<seq<int>>, exportOk: bool,
                          tmpDir: string, pid: string): (r: Snippet)
    ensures !inputExists <==> r == NoInput
    ensures r == Original <==> inputExists && (decoded.None? || !exportOk)
    ensures r.Exported? ==> decoded.Some? && r.path == SnippetPath(tmpDir, pid, filePath) &&
                            |r.samples| <= TargetMs && (|decoded.value| <= TargetMs ==> r.samples == decoded.value)
  {
    if !inputExists then NoInput
    else if decoded.None? || !exportOk then Original
    else Exported(SnippetPath(tmpDir, pid, filePath), Cut(decoded.value))
  }

  /** One entry of a section's `metadata`. */
  datatype Metadata = Metadata(text: Option<string>)

  datatype Section = Section(metadata: Option<seq<Metadata>>)

  datatype Images = Images(coverarthq: Option<string>, coverart: Option<string>)

  /** The `track` of Shazam's reply; an absent key is `None`, `hasOther` says whether it holds keys not read here. */
  datatype ShazamTrack = ShazamTrack(title: Option<string>, subtitle: Option<string>,
                                     sections: Option<seq<Section>>, genrePrimary: Option<string>,
                                     genres: bool, url: Option<string>, images: Option<Images>, hasOther: bool)

  /** An empty dict is falsy. */
  predicate IsEmpty(t: ShazamTrack)
  {
    t.title.None? && t.subtitle.None? && t.sections.None? && !t.genres && t.url.None? && t.images.None? && !t.hasOther
  }

  /** How `shazam.recognize(audio_bytes)` ends: a raised error, or the `track` of a dict reply (none when absent or not a dict). */
  datatype Reply = Raised(error: string) | Replied(track: Option<ShazamTrack>)

  /** The dict `recognize` returns. */
  datatype Recognition =
    | Recognized(title: string, artist: string, album: string, genre: string, shazamUrl: string, cover: string)
    | NotRecognized(errorMessage: string)

  const Unknown := "Noma'lum"
  const NoFileMessage := "Fayl topilmadi."
  const NoSnippetMessage := "Audio snippet tayyorlab bo'lmadi. ffmpeg o'rnatilganligini tekshiring."
  const NoSongMessage := "Shazam hech qanday qo'shiq topmadi. Boshqa audio yuboring."

  /** The first section has a first metadata entry, and that entry has a `text`. */
  predicate HasAlbumText(t: ShazamTrack)
  {
    t.sections.Some? && |t.sections.value| > 0 &&
    t.sections.value[0].metadata.Some? && |t.sections.value[0].metadata.value| > 0 &&
    t.sections.value[0].metadata.value[0].text.Some?
  }

  /** Lines 88-96: the text of the first metadata entry of the first section, else empty. */
  function Album(t: ShazamTrack): (r: string)
    ensures HasAlbumText(t) ==> r == t.sections.value[0].metadata.value[0].text.value
    ensures !HasAlbumText(t) ==> r == ""
  {
    var sections := t.sections.GetOr([]);
    if |sections| == 0 then ""
    else
      var metadata := sections[0].metadata.GetOr([]);
      if |metadata| == 0 then "" else metadata[0].text.GetOr("")
  }

  /** Lines 104-105: the high-quality cover when it is there and non-empty, else the plain one, else empty. */
  function Cover(t: ShazamTrack): (r: string)
    ensures var i := t.images.GetOr(Images(None, None));
            (i.coverarthq.Some? && i.coverarthq.value != "" ==> r == i.coverarthq.value) &&
            (i.coverarthq.GetOr("") == "" ==> r == i.coverart.GetOr(""))
  {
    var images := t.images.GetOr(Images(None, None));
    var hq := images.coverarthq.GetOr("");
    if hq != "" then hq else images.coverart.GetOr("")
  }

  /** Lines 72-113 once the snippet exists: the shaped reply. */
  function Shape(reply: Reply): (r: Recognition)
    ensures reply.Raised? ==> r == NotRecognized("Shazam xatolik: " + reply.error)
    ensures reply.Replied? && (reply.track.None? || IsEmpty(reply.track.value)) ==> r == NotRecognized(NoSongMessage)
    ensures reply.Replied? && reply.track.Some? && !IsEmpty(reply.track.value) ==>
              var t := reply.track.value;
              r.Recognized? && r.title == t.title.GetOr(Unknown) && r.artist == t.subtitle.GetOr(Unknown) &&
              r.album == Album(t) && r.genre == t.genrePrimary.GetOr("") && r.shazamUrl == t.url.GetOr("") &&
              r.cover == Cover(t)
  {
    match reply
    case Raised(e) => NotRecognized("Shazam xatolik: " + e)
    case Replied(track) =>
      if track.None? || IsEmpty(track.value) then NotRecognized(NoSongMessage)
      else
        var t := track.value;
        Recognized(t.title.GetOr(Unknown), t.subtitle.GetOr(Unknown), Album(t), t.genrePrimary.GetOr(""),
                   t.url.GetOr(""), Cover(t))
  }

  /** Whether `recognize` gets as far as Shazam (line 66): the input and a non-empty snippet path both exist. */
  predicate Reaches(filePath: string, isFile: string -> bool, snippet: Snippet)
  {
    var path := SnippetFile(snippet, filePath);
    isFile(filePath) && path.Some? && path.value != "" && isFile(path.value)
  }

  /** Lines 58-113: the dict `recognize` returns; `isFile` is `os.path.exists`. */
  function Answer(filePath: string, isFile: string -> bool, snippet: Snippet, reply: Reply): Recognition
  {
    if !isFile(filePath) then NotRecognized(NoFileMessage)
    else if !Reaches(filePath, isFile, snippet) then NotRecognized(NoSnippetMessage)
    else Shape(reply)
  }

  /**
   * Lines 114-119: the file the `finally` deletes. Only a snippet that is
   * not the input is deleted, so `recognize` never deletes its input.
   */
  function Cleanup(filePath: string, isFile: string -> bool, snippet: Snippet): (removed: Option<string>)
    ensures removed != Some(filePath)
    ensures removed.Some? ==> Reaches(filePath, isFile, snippet) && removed == SnippetFile(snippet, filePath)
    ensures Reaches(filePath, isFile, snippet) && snippet.Exported? && snippet.path != filePath ==> removed == Some(snippet.path)
  {
    var path := SnippetFile(snippet, filePath);
    if Reaches(filePath, isFile, snippet) && path.value != filePath then path else None
  }

  /** The retry policy of the Shazam HTTP client. */
  datatype RetryOptions = RetryOptions(attempts: nat, maxTimeoutSeconds: nat, statuses: set<int>)

  const ClientRetry := RetryOptions(5, 60, {500, 502, 503, 504, 429})

  /** The service: one Shazam client, made on first use. */
  class ShazamService {
    var client: Option<RetryOptions>

    /** The only client ever made is the one with the fixed policy. */
    ghost predicate Valid()
      reads this
    {
      client.Some? ==> client.value == ClientRetry
    }

    constructor()
      ensures client == None && Valid()
    {
      client := None;
    }

    /** Lines 18-29: the client, made once with the fixed retry policy. */
    method GetShazam() returns (c: RetryOptions)
      requires Valid()
      modifies this
      ensures Valid() && client == Some(ClientRetry) && c == ClientRetry
    {
      if client.None? {
        client := Some(ClientRetry);
      }
      c := client.value;
    }

    /**
     * Lines 58-119. `isFile` is `os.path.exists`; the snippet is made by
     * `PrepareSnippet` from `decoded` (pydub's reading of the file, none when
     * it raises) and `exportOk`, and `reply` is Shazam's answer to it.
     * `removed` is the file the `finally` deletes: the snippet, and only
     * when it is not the input, so the input file is never deleted here.
     */
    method Recognize(filePath: string, isFile: string -> bool, decoded: Option<seq<int>>, exportOk: bool,
                     tmpDir: string, pid: string, reply: Reply)
      returns (r: Recognition, removed: Option<string>)
      requires Valid()
      modifies this
      ensures Valid()
      ensures var snippet := PrepareSnippet(filePath, isFile(filePath), decoded, exportOk, tmpDir, pid);
              r == Answer(filePath, isFile, snippet, reply) &&
              removed == Cleanup(filePath, isFile, snippet) &&
              client == if Reaches(filePath, isFile, snippet) then Some(ClientRetry) else old(client)
    {
      removed := None;
      if !isFile(filePath) {
        return NotRecognized(NoFileMessage), None;
      }
      var snippet := PrepareSnippet(filePath, true, decoded, exportOk, tmpDir, pid);
      var snippetPath := SnippetFile(snippet, filePath);
      if snippetPath.None? || snippetPath.value == "" || !isFile(snippetPath.value) {
        return NotRecognized(NoSnippetMessage), None;
      }
      var _ := GetShazam();
      r := Shape(reply);
      if snippetPath.value != filePath {
        removed := snippetPath;
      }
    }
  }
}
