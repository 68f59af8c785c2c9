/**
 * `extract_data` of youtube_dl_gui/DownloadObject.py: one line of
 * youtube-dl's stdout becomes a sparse event, the fields this line
 * determines. The source indexes tokens without bounds checks, so a
 * truncated `[download]` line raises IndexError; here that is the
 * `Failure(IndexError)` result.
 */
module ProgressLine {
  import opened Wrappers
  import Text

  /** The eight keys of the progress record handed to `data_hook`. */
  datatype Field = PlaylistIndex | PlaylistSize | Filesize | Filename | Percent | Status | Speed | Eta

  /** A sparse event: only the keys one line determined. */
  type Event = map<Field, string>

  /** The exception `extract_data` can raise. */
  datatype ClassifyError = IndexError

  const DownloadHeader := "[download]"
  const FfmpegHeader := "[ffmpeg]"
  const DestinationMarker := "Destination:"
  const CompletedPercent := "100%"
  const DownloadedMarker := "downloaded"

  const Downloading := "Downloading"
  const AlreadyDownloaded := "Already Downloaded"
  const PostProcessing := "Post Processing"
  const PreProcessing := "Pre Processing"

  /** `[s for s in line.split(' ') if s != '']`. */
  function Tokens(line: string): seq<string> {
    Text.Fields(line, {' '})
  }

  /** The token after the header opens a playlist line: `Downloading video <i> of <n>`. */
  predicate PlaylistLine(rest: seq<string>)
    requires |rest| >= 2
  {
    rest[0] == "Downloading" && rest[1] == "video"
  }

  /** The token after the header is a progress percentage other than `100%`. */
  predicate ProgressToken(t: string) {
    '%' in t && t != CompletedPercent
  }

  /**
   * A `[download]` line whose tokens after the header are all there for the
   * source to read: at least one; seven when the first is a percentage other
   * than 100% (it reads tokens 2, 4 and 6); two when the first is
   * `Downloading`, and five when they are `Downloading video` (it reads
   * tokens 2 and 4).
   */
  predicate Intact(rest: seq<string>) {
    && |rest| >= 1
    && (ProgressToken(rest[0]) ==> |rest| >= 7)
    && (rest[0] == "Downloading" ==> |rest| >= 2 && (rest[1] == "video" ==> |rest| >= 5))
  }

  /** The lines on which `extract_data` raises IndexError. */
  predicate Truncated(tokens: seq<string>) {
    |tokens| >= 1 && tokens[0] == DownloadHeader && !Intact(tokens[1..])
  }

  /** Line 241-242: `Destination: <path>` names the file; the path is the rest, rejoined by single spaces. */
  function NameFields(rest: seq<string>): (m: Event)
    requires |rest| >= 1
    ensures m.Keys <= {Filename}
    ensures Filename in m <==> rest[0] == DestinationMarker
    ensures Filename in m ==> m[Filename] == Text.Join(rest[1..], ' ')
  {
    if rest[0] == DestinationMarker then map[Filename := Text.Join(rest[1..], ' ')] else map[]
  }

  /** Lines 245-253: a percentage; `100%` clears speed and eta, any other reads tokens 0, 2, 4 and 6. */
  function ProgressFields(rest: seq<string>): (m: Event)
    requires |rest| >= 1 && (ProgressToken(rest[0]) ==> |rest| >= 7)
    ensures m.Keys <= {Percent, Filesize, Speed, Eta}
    ensures m.Keys == {} <==> '%' !in rest[0]
    ensures rest[0] == CompletedPercent ==> m == map[Speed := "", Eta := ""]
    ensures ProgressToken(rest[0]) ==> m == map[Percent := rest[0], Filesize := rest[2], Speed := rest[4], Eta := rest[6]]
  {
    if '%' !in rest[0] then map[]
    else
      var m := if rest[0] == CompletedPercent then map[Speed := "", Eta := ""]
               else map[Percent := rest[0], Filesize := rest[2], Speed := rest[4], Eta := rest[6]];
      assert Speed in m.Keys;
      m
  }

  /** Lines 256-258: `Downloading video <i> of <n>` gives the playlist index and size, as strings. */
  function PlaylistFields(rest: seq<string>): (m: Event)
    requires |rest| >= 1 && (rest[0] == "Downloading" ==> |rest| >= 2 && (rest[1] == "video" ==> |rest| >= 5))
    ensures m.Keys <= {PlaylistIndex, PlaylistSize}
    ensures m.Keys != {} <==> |rest| >= 2 && PlaylistLine(rest)
    ensures m.Keys != {} ==> m == map[PlaylistIndex := rest[2], PlaylistSize := rest[4]]
  {
    if rest[0] == "Downloading" && rest[1] == "video" then
      var m := map[PlaylistIndex := rest[2], PlaylistSize := rest[4]];
      assert PlaylistIndex in m.Keys;
      m
    else map[]
  }

  /** Lines 237-238 and 260-262: Downloading, overridden when the last token is `downloaded`. */
  function DownloadStatus(rest: seq<string>): string
    requires |rest| >= 1
  {
    if rest[|rest| - 1] == DownloadedMarker then AlreadyDownloaded else Downloading
  }

  /** The event of an intact `[download]` line, from the tokens after its header. */
  function DownloadEvent(rest: seq<string>): (m: Event)
    requires Intact(rest)
    ensures Status in m && m[Status] == DownloadStatus(rest)
  {
    map[Status := DownloadStatus(rest)] + NameFields(rest) + ProgressFields(rest) + PlaylistFields(rest)
  }

  /** A destination line sets the file name, the rest of the line rejoined by single spaces; no other line does. */
  lemma DownloadEventName(rest: seq<string>)
    requires Intact(rest)
    ensures var m := DownloadEvent(rest);
            && (Filename in m <==> rest[0] == DestinationMarker)
            && (Filename in m ==> m[Filename] == Text.Join(rest[1..], ' '))
  {
    assert Filename !in ProgressFields(rest) && Filename !in PlaylistFields(rest);
  }

  /**
   * `100%` clears speed and eta and sets neither percent nor size; any
   * other percentage sets all four from tokens 0, 2, 4 and 6.
   */
  lemma DownloadEventProgress(rest: seq<string>)
    requires Intact(rest)
    ensures var m := DownloadEvent(rest);
            && (rest[0] == CompletedPercent ==>
                  Speed in m && m[Speed] == "" && Eta in m && m[Eta] == "" && Percent !in m && Filesize !in m)
            && (Percent in m <==> ProgressToken(rest[0]))
            && (ProgressToken(rest[0]) ==>
                  && Filesize in m && Speed in m && Eta in m
                  && m[Percent] == rest[0] && m[Filesize] == rest[2] && m[Speed] == rest[4] && m[Eta] == rest[6])
  {
    var playlist := PlaylistFields(rest);
    assert Percent !in playlist && Speed !in playlist && Eta !in playlist && Filesize !in playlist;
  }

  /** `Downloading video <i> of <n>` sets the playlist index and size from tokens 2 and 4, kept as strings. */
  lemma DownloadEventPlaylist(rest: seq<string>)
    requires Intact(rest)
    ensures var m := DownloadEvent(rest);
            && (PlaylistIndex in m <==> |rest| >= 2 && PlaylistLine(rest))
            && (PlaylistSize in m <==> PlaylistIndex in m)
            && (PlaylistIndex in m ==> m[PlaylistIndex] == rest[2] && m[PlaylistSize] == rest[4])
  {
  }

  /** The classification of an already tokenised line. */
  function Classify(tokens: seq<string>): (r: Result<Event, ClassifyError>)
    // no tokens: an empty event; any token: an event that carries a status
    ensures r == Success(map[]) <==> tokens == []
    ensures r.Success? && tokens != [] ==> Status in r.value
    ensures r.Failure? <==> Truncated(tokens)
    // a post-processing header and every header other than [download]
    ensures |tokens| >= 1 && tokens[0] == FfmpegHeader ==> r == Success(map[Status := PostProcessing])
    ensures |tokens| >= 1 && tokens[0] != DownloadHeader && tokens[0] != FfmpegHeader ==>
              r == Success(map[Status := PreProcessing])
    // a [download] line: Downloading, unless its last token is `downloaded`
    ensures r.Success? && |tokens| >= 1 && tokens[0] == DownloadHeader ==>
              r.value[Status] == if tokens[|tokens| - 1] == DownloadedMarker then AlreadyDownloaded else Downloading
  {
    if tokens == [] then Success(map[])
    else if tokens[0] == DownloadHeader then
      if Truncated(tokens) then Failure(IndexError)
      else
        var ev := DownloadEvent(tokens[1..]);
        assert Status in ev.Keys;
        Success(ev)
    else
      var ev := map[Status := if tokens[0] == FfmpegHeader then PostProcessing else PreProcessing];
      assert Status in ev.Keys;
      Success(ev)
  }

  /** `extract_data(stdout)`. */
  function ExtractData(line: string): (r: Result<Event, ClassifyError>)
    // an empty event exactly for lines made only of spaces
    ensures r == Success(map[]) <==> forall i :: 0 <= i < |line| ==> line[i] == ' '
  {
    Text.FieldsBlank(line, {' '});
    Classify(Tokens(line))
  }

  /** The fixed words of youtube-dl's progress lines contain no space. */
  lemma MarkersFree()
    ensures Text.Free(DownloadHeader, {' '}) && Text.Free(DestinationMarker, {' '})
    ensures Text.Free(CompletedPercent, {' '})
    ensures Text.Free("of", {' '}) && Text.Free("at", {' '}) && Text.Free("ETA", {' '})
  {
  }

  /** After `Destination:` only the file name is read. */
  lemma DestinationEvent(rest: seq<string>)
    requires |rest| >= 2 && rest[0] == DestinationMarker && rest[|rest| - 1] != DownloadedMarker
    ensures Intact(rest)
    ensures DownloadEvent(rest) == map[Status := Downloading, Filename := Text.Join(rest[1..], ' ')]
  {
    assert '%' !in DestinationMarker;
    assert ProgressFields(rest) == map[] && PlaylistFields(rest) == map[];
    assert NameFields(rest) == map[Filename := Text.Join(rest[1..], ' ')];
  }

  /**
   * Putting the header in front of `Destination: <path...>` keeps the
   * tokenisation: the words come back.
   */
  lemma DestinationWords(rest: seq<string>)
    requires |rest| >= 1 && rest[0] == DestinationMarker
    requires forall i :: 1 <= i < |rest| ==> rest[i] != "" && Text.Free(rest[i], {' '})
    ensures Tokens(Text.Join([DownloadHeader] + rest, ' ')) == [DownloadHeader] + rest
  {
    DestinationWordsFree(rest);
    Text.FieldsJoin([DownloadHeader] + rest, ' ');
  }

  /** Every word of a destination line is a non-empty run of non-spaces. */
  lemma DestinationWordsFree(rest: seq<string>)
    requires |rest| >= 1 && rest[0] == DestinationMarker
    requires forall i :: 1 <= i < |rest| ==> rest[i] != "" && Text.Free(rest[i], {' '})
    ensures var words := [DownloadHeader] + rest;
            forall i :: 0 <= i < |words| ==> words[i] != "" && Text.Free(words[i], {' '})
  {
    var words := [DownloadHeader] + rest;
    MarkersFree();
    forall i | 0 <= i < |words| ensures words[i] != "" && Text.Free(words[i], {' '}) {
      if i == 0 {
        assert words[i] == DownloadHeader;
      } else if i == 1 {
        assert words[i] == DestinationMarker;
      } else {
        assert words[i] == rest[i - 1];
      }
    }
  }

  /**
   * A line whose tokens are `[download] Destination: <path...>` names that
   * file, the path rejoined by single spaces, and nothing else.
   */
  lemma DestinationTokens(line: string, rest: seq<string>)
    requires |rest| >= 2 && rest[0] == DestinationMarker && rest[|rest| - 1] != DownloadedMarker
    requires Tokens(line) == [DownloadHeader] + rest
    ensures ExtractData(line) == Success(map[Status := Downloading, Filename := Text.Join(rest[1..], ' ')])
  {
    DestinationRest(rest);
  }

  /** The same, for the tokens themselves. */
  lemma DestinationRest(rest: seq<string>)
    requires |rest| >= 2 && rest[0] == DestinationMarker && rest[|rest| - 1] != DownloadedMarker
    ensures Classify([DownloadHeader] + rest) == Success(map[Status := Downloading, Filename := Text.Join(rest[1..], ' ')])
  {
    var t := [DownloadHeader] + rest;
    assert t[1..] == rest;
    DestinationEvent(rest);
    DownloadClassify(t);
  }

  /** An intact `[download]` line is the event of the tokens after its header. */
  lemma DownloadClassify(t: seq<string>)
    requires |t| >= 1 && t[0] == DownloadHeader && Intact(t[1..])
    ensures Classify(t) == Success(DownloadEvent(t[1..]))
  {
  }

  /**
   * The line `[download] Destination: <path>`, given as the words after the
   * header: the path comes back, rejoined by single spaces.
   */
  lemma DestinationLine(rest: seq<string>)
    requires |rest| >= 2 && rest[0] == DestinationMarker && rest[|rest| - 1] != DownloadedMarker
    requires forall i :: 1 <= i < |rest| ==> rest[i] != "" && Text.Free(rest[i], {' '})
    ensures ExtractData(Text.Join([DownloadHeader] + rest, ' '))
            == Success(map[Status := Downloading, Filename := Text.Join(rest[1..], ' ')])
  {
    DestinationWords(rest);
    DestinationTokens(Text.Join([DownloadHeader] + rest, ' '), rest);
  }

  /** The tokens of `<p> of <size> at <speed> ETA <eta>` after the header, for a percentage other than 100%. */
  lemma ProgressEvent(rest: seq<string>)
    requires |rest| == 7 && ProgressToken(rest[0]) && rest[6] != DownloadedMarker
    ensures Intact(rest)
    ensures DownloadEvent(rest)
            == map[Status := Downloading, Percent := rest[0], Filesize := rest[2], Speed := rest[4], Eta := rest[6]]
  {
    assert rest[0] != DestinationMarker by { assert '%' !in DestinationMarker; }
    assert rest[0] != "Downloading" by { assert '%' !in "Downloading"; }
    assert NameFields(rest) == map[] && PlaylistFields(rest) == map[];
  }

  /**
   * A progress line `[download] <p> of <size> at <speed> ETA <eta>`: a
   * percentage other than 100% yields exactly those four fields.
   */
  lemma ProgressLineFields(p: string, size: string, speed: string, eta: string)
    requires ProgressToken(p) && eta != DownloadedMarker
    requires p != "" && Text.Free(p, {' '}) && size != "" && Text.Free(size, {' '})
    requires speed != "" && Text.Free(speed, {' '}) && eta != "" && Text.Free(eta, {' '})
    ensures ExtractData(Text.Join([DownloadHeader, p, "of", size, "at", speed, "ETA", eta], ' '))
            == Success(map[Status := Downloading, Percent := p, Filesize := size, Speed := speed, Eta := eta])
  {
    var words := [DownloadHeader, p, "of", size, "at", speed, "ETA", eta];
    MarkersFree();
    Text.FieldsJoin(words, ' ');
    ProgressEvent(words[1..]);
  }

  /** The tokens of `100% of <size>` after the header. */
  lemma CompletedEvent(rest: seq<string>)
    requires |rest| == 3 && rest[0] == CompletedPercent && rest[2] != DownloadedMarker
    ensures Intact(rest)
    ensures DownloadEvent(rest) == map[Status := Downloading, Speed := "", Eta := ""]
  {
    assert '%' in CompletedPercent by { assert CompletedPercent[3] == '%'; }
    assert NameFields(rest) == map[] && PlaylistFields(rest) == map[];
  }

  /** `[download] 100% of <size>`: speed and eta become empty, percent is not set. */
  lemma CompletedLine(size: string)
    requires size != "" && Text.Free(size, {' '}) && size != DownloadedMarker
    ensures ExtractData(Text.Join([DownloadHeader, CompletedPercent, "of", size], ' '))
            == Success(map[Status := Downloading, Speed := "", Eta := ""])
  {
    var words := [DownloadHeader, CompletedPercent, "of", size];
    MarkersFree();
    Text.FieldsJoin(words, ' ');
    CompletedEvent(words[1..]);
  }

  /** A bare `[download]` line is one the source cannot classify: IndexError. */
  lemma BareDownloadHeader()
    ensures ExtractData(DownloadHeader) == Failure(IndexError)
  {
    MarkersFree();
    Text.FieldsJoin([DownloadHeader], ' ');
  }
}
