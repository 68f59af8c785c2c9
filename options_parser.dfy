/**
 * youtube_dl_gui/OptionsParser.py: the translation of the GUI's option
 * record into the argument vector youtube-dl is run with.
 *
 * Each `_set_*_options` method appends to `options_list` in a fixed order.
 * The model states what each phase appends as a sequence of `Arg`s, youtube-dl
 * options with or without a value, and `Flatten` writes those out as argv.
 * `Decode` reads an argv back by the arity of each option, as far as the
 * spellings the parser emits go; the round trip `Decode(Flatten(args)) == args` is what makes the
 * facts proved about each phase facts about the argv itself.
 */
module OptionsParsing {
  import opened Wrappers
  import Text

  // The lookup tables of lines 10-44.

  const SubsLang: map<string, string> := map[
    "English" := "en", "Greek" := "gr", "Portuguese" := "pt", "French" := "fr",
    "Italian" := "it", "Russian" := "ru", "Spanish" := "es", "German" := "de"]

  const VideoFormats: map<string, string> := map[
    "default" := "0", "mp4 [1280x720]" := "22", "mp4 [640x360]" := "18",
    "webm [640x360]" := "43", "flv [400x240]" := "5", "3gp [320x240]" := "36",
    "mp4 1080p(DASH)" := "137", "mp4 720p(DASH)" := "136",
    "mp4 480p(DASH)" := "135", "mp4 360p(DASH)" := "134"]

  const DashAudioFormats: map<string, string> := map[
    "none" := "none", "DASH m4a audio 128k" := "140", "DASH webm audio 48k" := "171"]

  const AudioQuality: map<string, string> := map["high" := "0", "mid" := "5", "low" := "9"]

  /**
   * The four tables as one record. The phases read the tables through it, so
   * everything proved about them holds for any contents; `SourceTables` is
   * the record the parser object is built with.
   */
  datatype Tables = Tables(
    subsLang: map<string, string>, videoFormats: map<string, string>,
    dashAudioFormats: map<string, string>, audioQuality: map<string, string>)

  const SourceTables := Tables(SubsLang, VideoFormats, DashAudioFormats, AudioQuality)

  const IdTemplate := "%(id)s.%(ext)s"
  const TitleTemplate := "%(title)s.%(ext)s"

  /** The entries of `OptionsManager.options` that the parser reads. */
  datatype Options = Options(
    savePath: string, outputFormat: string, outputTemplate: string, restrictFilenames: bool,
    username: string, password: string, videoPassword: string,
    retries: int, proxy: string, userAgent: string, referer: string,
    videoFormat: string, dashAudioFormat: string,
    playlistStart: int, playlistEnd: int, maxDownloads: int,
    ignoreErrors: bool, writeDescription: bool, writeInfo: bool, writeThumbnail: bool,
    minFilesize: string, maxFilesize: string,
    writeAllSubs: bool, writeAutoSubs: bool, writeSubs: bool, subsLang: string, embedSubs: bool,
    toAudio: bool, audioFormat: string, audioQuality: string, keepVideo: bool,
    cmdArgs: string)

  /** The options the parser emits. */
  datatype Opt =
    Newline | Output | RestrictFilenames | Username | Password
    | VideoPassword | Retries | Proxy | UserAgent | Referer
    | Format | PlaylistStart | PlaylistEnd | MaxDownloads | IgnoreErrors
    | WriteDescription | WriteInfoJson | WriteThumbnail | MinFilesize | MaxFilesize
    | AllSubs | WriteAutoSub | WriteSub | SubLang | EmbedSubs
    | ExtractAudio | AudioFormat | Quality | KeepVideo

  /** How youtube-dl spells each option on its command line. */
  function Spelling(o: Opt): string {
    match o
    case Newline => "--newline"
    case Output => "-o"
    case RestrictFilenames => "--restrict-filenames"
    case Username => "-u"
    case Password => "-p"
    case VideoPassword => "--video-password"
    case Retries => "-R"
    case Proxy => "--proxy"
    case UserAgent => "--user-agent"
    case Referer => "--referer"
    case Format => "-f"
    case PlaylistStart => "--playlist-start"
    case PlaylistEnd => "--playlist-end"
    case MaxDownloads => "--max-downloads"
    case IgnoreErrors => "-i"
    case WriteDescription => "--write-description"
    case WriteInfoJson => "--write-info-json"
    case WriteThumbnail => "--write-thumbnail"
    case MinFilesize => "--min-filesize"
    case MaxFilesize => "--max-filesize"
    case AllSubs => "--all-subs"
    case WriteAutoSub => "--write-auto-sub"
    case WriteSub => "--write-sub"
    case SubLang => "--sub-lang"
    case EmbedSubs => "--embed-subs"
    case ExtractAudio => "-x"
    case AudioFormat => "--audio-format"
    case Quality => "--audio-quality"
    case KeepVideo => "-k"
  }

  /** The options that take the next argv item as their value. */
  predicate TakesValue(o: Opt) {
    || o == Output
    || o == Username
    || o == Password
    || o == VideoPassword
    || o == Retries
    || o == Proxy
    || o == UserAgent
    || o == Referer
    || o == Format
    || o == PlaylistStart
    || o == PlaylistEnd
    || o == MaxDownloads
    || o == MinFilesize
    || o == MaxFilesize
    || o == SubLang
    || o == AudioFormat
    || o == Quality
  }

  /**
   * The option a command-line item spells, if it spells one: the length and
   * one character that tells the candidates of that length apart pick the
   * option, and the whole word is then compared with its spelling. The
   * length and character tests only keep the proofs small: the comparison
   * with the spelling alone decides the result.
   */
  function Recognize(s: string): (r: Option<Opt>)
    ensures r.Some? ==> Spelling(r.value) == s
  {
    if |s| == 2 then
      if s[1] == 'o' && s == Spelling(Output) then Some(Output)
      else if s[1] == 'u' && s == Spelling(Username) then Some(Username)
      else if s[1] == 'p' && s == Spelling(Password) then Some(Password)
      else if s[1] == 'R' && s == Spelling(Retries) then Some(Retries)
      else if s[1] == 'f' && s == Spelling(Format) then Some(Format)
      else if s[1] == 'i' && s == Spelling(IgnoreErrors) then Some(IgnoreErrors)
      else if s[1] == 'x' && s == Spelling(ExtractAudio) then Some(ExtractAudio)
      else if s[1] == 'k' && s == Spelling(KeepVideo) then Some(KeepVideo)
      else None
    else if |s| == 7 then
      if s == Spelling(Proxy) then Some(Proxy)
      else None
    else if |s| == 9 then
      if s[2] == 'n' && s == Spelling(Newline) then Some(Newline)
      else if s[2] == 'r' && s == Spelling(Referer) then Some(Referer)
      else None
    else if |s| == 10 then
      if s[2] == 'a' && s == Spelling(AllSubs) then Some(AllSubs)
      else if s[2] == 's' && s == Spelling(SubLang) then Some(SubLang)
      else None
    else if |s| == 11 then
      if s == Spelling(WriteSub) then Some(WriteSub)
      else None
    else if |s| == 12 then
      if s[2] == 'u' && s == Spelling(UserAgent) then Some(UserAgent)
      else if s[2] == 'e' && s == Spelling(EmbedSubs) then Some(EmbedSubs)
      else None
    else if |s| == 14 then
      if s[3] == 'l' && s == Spelling(PlaylistEnd) then Some(PlaylistEnd)
      else if s[3] == 'i' && s == Spelling(MinFilesize) then Some(MinFilesize)
      else if s[3] == 'a' && s == Spelling(MaxFilesize) then Some(MaxFilesize)
      else if s[3] == 'u' && s == Spelling(AudioFormat) then Some(AudioFormat)
      else None
    else if |s| == 15 then
      if s[3] == 'a' && s == Spelling(MaxDownloads) then Some(MaxDownloads)
      else if s[3] == 'u' && s == Spelling(Quality) then Some(Quality)
      else None
    else if |s| == 16 then
      if s[3] == 'i' && s == Spelling(VideoPassword) then Some(VideoPassword)
      else if s[3] == 'l' && s == Spelling(PlaylistStart) then Some(PlaylistStart)
      else if s[3] == 'r' && s == Spelling(WriteAutoSub) then Some(WriteAutoSub)
      else None
    else if |s| == 17 then
      if s[8] == 'i' && s == Spelling(WriteInfoJson) then Some(WriteInfoJson)
      else if s[8] == 't' && s == Spelling(WriteThumbnail) then Some(WriteThumbnail)
      else None
    else if |s| == 19 then
      if s == Spelling(WriteDescription) then Some(WriteDescription)
      else None
    else if |s| == 20 then
      if s == Spelling(RestrictFilenames) then Some(RestrictFilenames)
      else None
    else None
  }

  lemma RecognizeSpelling(o: Opt)
    ensures Recognize(Spelling(o)) == Some(o)
  {
    match o
    case Output | Username | Password | Retries => RecognizeGroup1(o);
    case Format | IgnoreErrors | ExtractAudio | KeepVideo => RecognizeGroup2(o);
    case Proxy | Newline | Referer | AllSubs => RecognizeGroup3(o);
    case SubLang | WriteSub | UserAgent | EmbedSubs => RecognizeGroup4(o);
    case PlaylistEnd | MinFilesize | MaxFilesize => RecognizeGroup5(o);
    case AudioFormat | MaxDownloads | Quality => RecognizeGroup6(o);
    case VideoPassword | PlaylistStart | WriteAutoSub | WriteInfoJson => RecognizeGroup7(o);
    case WriteThumbnail | WriteDescription | RestrictFilenames => RecognizeGroup8(o);
  }

  // Helper lemmas for RecognizeSpelling: its case analysis is split into
  // eight groups so that each proof obligation stays small.

  /** `RecognizeSpelling` for Output, Username, Password and Retries. */
  lemma RecognizeGroup1(o: Opt)
    requires o in {Output, Username, Password, Retries}
    ensures Recognize(Spelling(o)) == Some(o)
  {
    match o
    case Output =>
    case Username =>
    case Password =>
    case Retries =>
  }

  /** `RecognizeSpelling` for Format, IgnoreErrors, ExtractAudio and KeepVideo. */
  lemma RecognizeGroup2(o: Opt)
    requires o in {Format, IgnoreErrors, ExtractAudio, KeepVideo}
    ensures Recognize(Spelling(o)) == Some(o)
  {
    match o
    case Format =>
    case IgnoreErrors =>
    case ExtractAudio =>
    case KeepVideo =>
  }

  /** `RecognizeSpelling` for Proxy, Newline, Referer and AllSubs. */
  lemma RecognizeGroup3(o: Opt)
    requires o in {Proxy, Newline, Referer, AllSubs}
    ensures Recognize(Spelling(o)) == Some(o)
  {
    match o
    case Proxy =>
    case Newline =>
    case Referer =>
    case AllSubs =>
  }

  /** `RecognizeSpelling` for SubLang, WriteSub, UserAgent and EmbedSubs. */
  lemma RecognizeGroup4(o: Opt)
    requires o in {SubLang, WriteSub, UserAgent, EmbedSubs}
    ensures Recognize(Spelling(o)) == Some(o)
  {
    match o
    case SubLang =>
    case WriteSub =>
    case UserAgent =>
    case EmbedSubs =>
  }

  /** `RecognizeSpelling` for PlaylistEnd, MinFilesize and MaxFilesize. */
  lemma RecognizeGroup5(o: Opt)
    requires o in {PlaylistEnd, MinFilesize, MaxFilesize}
    ensures Recognize(Spelling(o)) == Some(o)
  {
    match o
    case PlaylistEnd =>
    case MinFilesize =>
    case MaxFilesize =>
  }

  /** `RecognizeSpelling` for AudioFormat, MaxDownloads and Quality. */
  lemma RecognizeGroup6(o: Opt)
    requires o in {AudioFormat, MaxDownloads, Quality}
    ensures Recognize(Spelling(o)) == Some(o)
  {
    match o
    case AudioFormat =>
    case MaxDownloads =>
    case Quality =>
  }

  /** `RecognizeSpelling` for VideoPassword, PlaylistStart, WriteAutoSub and WriteInfoJson. */
  lemma RecognizeGroup7(o: Opt)
    requires o in {VideoPassword, PlaylistStart, WriteAutoSub, WriteInfoJson}
    ensures Recognize(Spelling(o)) == Some(o)
  {
    match o
    case VideoPassword =>
    case PlaylistStart =>
    case WriteAutoSub =>
    case WriteInfoJson =>
  }

  /** `RecognizeSpelling` for WriteThumbnail, WriteDescription and RestrictFilenames. */
  lemma RecognizeGroup8(o: Opt)
    requires o in {WriteThumbnail, WriteDescription, RestrictFilenames}
    ensures Recognize(Spelling(o)) == Some(o)
  {
    match o
    case WriteThumbnail =>
    case WriteDescription =>
    case RestrictFilenames =>
  }

  /**
   * One item of youtube-dl's command line as `Decode` reads it: a switch,
   * an option with its value, or a word that is neither.
   */
  datatype Arg = Flag(opt: Opt) | Valued(opt: Opt, value: string) | Extra(word: string)

  function Render(a: Arg): seq<string> {
    match a
    case Flag(o) => [Spelling(o)]
    case Valued(o, v) => [Spelling(o), v]
    case Extra(w) => [w]
  }

  /** The argv items of a sequence of options. */
  function Flatten(args: seq<Arg>): (argv: seq<string>)
    ensures |argv| >= |args|
  {
    if args == [] then [] else Render(args[0]) + Flatten(args[1..])
  }

  /** An option, written with as many items as its arity asks for. */
  predicate Proper(a: Arg) {
    !a.Extra? && (a.Valued? <==> TakesValue(a.opt))
  }

  /** Options only, each of them proper. */
  predicate WellFormed(args: seq<Arg>) {
    forall a :: a in args ==> Proper(a)
  }

  /**
   * Reading an argv by arity: an item that spells an option exactly is that
   * option, and one that takes a value consumes the next item; a last option
   * with no item left for its value is kept as a word. youtube-dl's own
   * parser accepts more spellings and rejects that last case.
   */
  function Decode(argv: seq<string>): (args: seq<Arg>)
    ensures |args| <= |argv|
    decreases |argv|
  {
    if argv == [] then []
    else match Recognize(argv[0])
      case None => [Extra(argv[0])] + Decode(argv[1..])
      case Some(o) =>
        if !TakesValue(o) then [Flag(o)] + Decode(argv[1..])
        else if |argv| >= 2 then [Valued(o, argv[1])] + Decode(argv[2..])
        else [Extra(argv[0])]
  }

  lemma {:induction false} FlattenAppend(a: seq<Arg>, b: seq<Arg>)
    ensures Flatten(a + b) == Flatten(a) + Flatten(b)
    decreases |a|
  {
    if a == [] {
      assert a + b == b;
    } else {
      assert (a + b)[1..] == a[1..] + b;
      FlattenAppend(a[1..], b);
    }
  }

  lemma SplitFirst<T>(s: seq<T>)
    requires s != []
    ensures s == [s[0]] + s[1..]
  {
  }

  lemma FlattenCons(a: Arg, rest: seq<Arg>)
    ensures Flatten([a] + rest) == Render(a) + Flatten(rest)
  {
    assert ([a] + rest)[1..] == rest;
  }

  lemma ConsAppend<T>(s: seq<T>, t: seq<T>)
    requires s != []
    ensures s + t == [s[0]] + (s[1..] + t)
  {
    assert s == [s[0]] + s[1..];
  }

  /** Decoding loses nothing: writing the decoded items out gives the argv back. */
  lemma {:induction false} FlattenDecode(argv: seq<string>)
    ensures Flatten(Decode(argv)) == argv
    decreases |argv|
  {
    if argv != [] {
      match Recognize(argv[0])
      case None =>
        FlattenDecode(argv[1..]);
        FlattenCons(Extra(argv[0]), Decode(argv[1..]));
        SplitFirst(argv);
      case Some(o) =>
        if !TakesValue(o) {
          FlattenDecode(argv[1..]);
          FlattenCons(Flag(o), Decode(argv[1..]));
          SplitFirst(argv);
        } else if |argv| >= 2 {
          FlattenDecode(argv[2..]);
          FlattenCons(Valued(o, argv[1]), Decode(argv[2..]));
          assert argv == [argv[0], argv[1]] + argv[2..];
        } else {
          FlattenCons(Extra(argv[0]), []);
          SplitFirst(argv);
        }
    }
  }

  /** One proper option is read back, whatever follows it. */
  lemma DecodeHead(a: Arg, rest: seq<string>)
    requires Proper(a)
    ensures Decode(Render(a) + rest) == [a] + Decode(rest)
  {
    RecognizeSpelling(a.opt);
    var argv := Render(a) + rest;
    if a.Flag? {
      assert argv[1..] == rest;
    } else {
      assert argv[2..] == rest;
    }
  }

  /** Well-formed options are read back exactly, whatever follows them. */
  lemma {:induction false} DecodeFlatten(args: seq<Arg>, tail: seq<string>)
    requires WellFormed(args)
    ensures Decode(Flatten(args) + tail) == args + Decode(tail)
    decreases |args|
  {
    if args == [] {
      assert Flatten(args) + tail == tail;
    } else {
      var rest := args[1..];
      assert Proper(args[0]) by { assert args[0] in args; }
      assert WellFormed(rest) by { assert forall a :: a in rest ==> a in args; }
      var y := Flatten(rest) + tail;
      DecodeFlatten(rest, tail);
      SplitFirst(args);
      FlattenCons(args[0], rest);
      AppendAssoc(Render(args[0]), Flatten(rest), tail);
      assert Flatten(args) + tail == Render(args[0]) + y;
      DecodeHead(args[0], y);
      ConsAppend(args, Decode(tail));
    }
  }

  /** An option emitted only when its guard holds. */
  function When(c: bool, a: Arg): (r: seq<Arg>)
    ensures a in r <==> c
    ensures forall x :: x in r ==> x == a
  {
    if c then [a] else []
  }

  /** The target of `-o` for the three known output formats (lines 166-171). */
  function OutputTarget(o: Options, fixPath: string -> string): (r: Option<string>)
    ensures r.Some? <==> o.outputFormat in {"id", "title", "custom"}
    ensures o.outputFormat == "id" ==> r == Some(fixPath(o.savePath) + IdTemplate)
    ensures o.outputFormat == "title" ==> r == Some(fixPath(o.savePath) + TitleTemplate)
    ensures o.outputFormat == "custom" ==> r == Some(fixPath(o.savePath) + o.outputTemplate)
  {
    var path := fixPath(o.savePath);
    if o.outputFormat == "id" then Some(path + IdTemplate)
    else if o.outputFormat == "title" then Some(path + TitleTemplate)
    else if o.outputFormat == "custom" then Some(path + o.outputTemplate)
    else None
  }

  /** `_set_output_options`: `-o` and its target; a bare `-o` for any other format. */
  function OutputArgs(o: Options, fixPath: string -> string): (r: seq<Arg>)
    ensures |r| >= 1 && !r[0].Extra? && r[0].opt == Output
    ensures r[0].Valued? <==> OutputTarget(o, fixPath).Some?
    ensures r[0].Valued? ==> r[0].value == OutputTarget(o, fixPath).value
    ensures Flag(RestrictFilenames) in r <==> o.restrictFilenames
    ensures |r| == if o.restrictFilenames then 2 else 1
  {
    var target := OutputTarget(o, fixPath);
    (if target.Some? then [Valued(Output, target.value)] else [Flag(Output)])
      + When(o.restrictFilenames, Flag(RestrictFilenames))
  }

  /** `_set_auth_options`: each credential, after its option, exactly when it is not empty. */
  function AuthArgs(o: Options): (r: seq<Arg>)
    ensures Valued(Username, o.username) in r <==> o.username != ""
    ensures Valued(Password, o.password) in r <==> o.password != ""
    ensures Valued(VideoPassword, o.videoPassword) in r <==> o.videoPassword != ""
  {
    When(o.username != "", Valued(Username, o.username))
      + When(o.password != "", Valued(Password, o.password))
      + When(o.videoPassword != "", Valued(VideoPassword, o.videoPassword))
  }

  /** `_set_connection_options`: retries unless 10, then proxy, user agent, referer unless empty. */
  function ConnectionArgs(o: Options): (r: seq<Arg>)
    ensures Valued(Retries, Text.IntToString(o.retries)) in r <==> o.retries != 10
    ensures Valued(Proxy, o.proxy) in r <==> o.proxy != ""
    ensures Valued(UserAgent, o.userAgent) in r <==> o.userAgent != ""
    ensures Valued(Referer, o.referer) in r <==> o.referer != ""
  {
    When(o.retries != 10, Valued(Retries, Text.IntToString(o.retries)))
      + When(o.proxy != "", Valued(Proxy, o.proxy))
      + When(o.userAgent != "", Valued(UserAgent, o.userAgent))
      + When(o.referer != "", Valued(Referer, o.referer))
  }

  /** A table lookup that failed: the missing key and what the phase had appended before it. */
  datatype KeyError = KeyError(key: string, emitted: seq<string>)

  /** Whether the DASH audio track is muxed into the video code (lines 126-130). */
  predicate MuxesDash(o: Options, isDash: string -> bool) {
    isDash(o.videoFormat) && isDash(o.dashAudioFormat)
  }

  /** `_set_video_options`: `-f` and the format code, with `+audio` for two DASH formats. */
  function VideoArgs(o: Options, isDash: string -> bool, t: Tables): (r: Result<seq<Arg>, KeyError>)
    ensures o.videoFormat == "default" ==> r == Success([])
    ensures r.Failure? <==>
              o.videoFormat != "default" &&
              (o.videoFormat !in t.videoFormats || (MuxesDash(o, isDash) && o.dashAudioFormat !in t.dashAudioFormats))
    // the KeyError comes after `-f` has been appended
    ensures r.Failure? ==> r.error.emitted == [Spelling(Format)]
    ensures r.Failure? ==> r.error.key == (if o.videoFormat !in t.videoFormats then o.videoFormat else o.dashAudioFormat)
    ensures r.Success? && o.videoFormat != "default" ==>
              && o.videoFormat in t.videoFormats
              && |r.value| == 1 && r.value[0].Valued? && r.value[0].opt == Format
              && t.videoFormats[o.videoFormat] <= r.value[0].value
              && (MuxesDash(o, isDash) <==> |r.value[0].value| > |t.videoFormats[o.videoFormat]|)
              && (MuxesDash(o, isDash) ==>
                    r.value[0].value == t.videoFormats[o.videoFormat] + "+" + t.dashAudioFormats[o.dashAudioFormat])
  {
    if o.videoFormat == "default" then Success([])
    else if o.videoFormat !in t.videoFormats then Failure(KeyError(o.videoFormat, [Spelling(Format)]))
    else
      var code := t.videoFormats[o.videoFormat];
      if MuxesDash(o, isDash) then
        if o.dashAudioFormat !in t.dashAudioFormats then Failure(KeyError(o.dashAudioFormat, [Spelling(Format)]))
        else Success([Valued(Format, code + "+" + t.dashAudioFormats[o.dashAudioFormat])])
      else Success([Valued(Format, code)])
  }

  /** `_set_playlist_options`: start unless 1, end and maximum unless 0, in decimal. */
  function PlaylistArgs(o: Options): (r: seq<Arg>)
    ensures Valued(PlaylistStart, Text.IntToString(o.playlistStart)) in r <==> o.playlistStart != 1
    ensures Valued(PlaylistEnd, Text.IntToString(o.playlistEnd)) in r <==> o.playlistEnd != 0
    ensures Valued(MaxDownloads, Text.IntToString(o.maxDownloads)) in r <==> o.maxDownloads != 0
  {
    When(o.playlistStart != 1, Valued(PlaylistStart, Text.IntToString(o.playlistStart)))
      + When(o.playlistEnd != 0, Valued(PlaylistEnd, Text.IntToString(o.playlistEnd)))
      + When(o.maxDownloads != 0, Valued(MaxDownloads, Text.IntToString(o.maxDownloads)))
  }

  /** `_set_filesystem_options`: four switches, then the size limits unless they are "0". */
  function FilesystemArgs(o: Options): (r: seq<Arg>)
    ensures Flag(IgnoreErrors) in r <==> o.ignoreErrors
    ensures Flag(WriteDescription) in r <==> o.writeDescription
    ensures Flag(WriteInfoJson) in r <==> o.writeInfo
    ensures Flag(WriteThumbnail) in r <==> o.writeThumbnail
    ensures Valued(MinFilesize, o.minFilesize) in r <==> o.minFilesize != "0"
    ensures Valued(MaxFilesize, o.maxFilesize) in r <==> o.maxFilesize != "0"
  {
    When(o.ignoreErrors, Flag(IgnoreErrors))
      + When(o.writeDescription, Flag(WriteDescription))
      + When(o.writeInfo, Flag(WriteInfoJson))
      + When(o.writeThumbnail, Flag(WriteThumbnail))
      + When(o.minFilesize != "0", Valued(MinFilesize, o.minFilesize))
      + When(o.maxFilesize != "0", Valued(MaxFilesize, o.maxFilesize))
  }

  /** The switches `_set_subtitles_options` appends before `--write-sub`. */
  function SubtitlesHead(o: Options): seq<Arg> {
    When(o.writeAllSubs, Flag(AllSubs)) + When(o.writeAutoSubs, Flag(WriteAutoSub))
  }

  /** `--write-sub`, which always brings `--sub-lang` and the code looked up for the language. */
  function LanguageArgs(o: Options, t: Tables): (r: Result<seq<Arg>, KeyError>)
    ensures r.Failure? <==> o.subsLang !in t.subsLang
    ensures r.Failure? ==> r.error == KeyError(o.subsLang, [Spelling(WriteSub), Spelling(SubLang)])
    ensures r.Success? ==> r.value == [Flag(WriteSub), Valued(SubLang, t.subsLang[o.subsLang])]
  {
    if o.subsLang !in t.subsLang then Failure(KeyError(o.subsLang, [Spelling(WriteSub), Spelling(SubLang)]))
    else Success([Flag(WriteSub), Valued(SubLang, t.subsLang[o.subsLang])])
  }

  /** `_set_subtitles_options`: subtitle switches; `--write-sub` brings `--sub-lang` and the language code. */
  function SubtitlesArgs(o: Options, t: Tables): (r: Result<seq<Arg>, KeyError>)
    ensures r.Failure? <==> o.writeSubs && o.subsLang !in t.subsLang
    ensures r.Failure? ==> r.error == KeyError(o.subsLang, Flatten(SubtitlesHead(o)) + [Spelling(WriteSub), Spelling(SubLang)])
    // each switch is emitted exactly when it is set
    ensures r.Success? ==>
              && (Flag(AllSubs) in r.value <==> o.writeAllSubs)
              && (Flag(WriteAutoSub) in r.value <==> o.writeAutoSubs)
              && (Flag(WriteSub) in r.value <==> o.writeSubs)
              && (Flag(EmbedSubs) in r.value <==> o.embedSubs)
  {
    var head := SubtitlesHead(o);
    var tail := When(o.embedSubs, Flag(EmbedSubs));
    if o.writeSubs then
      if o.subsLang !in t.subsLang then Failure(KeyError(o.subsLang, Flatten(head) + [Spelling(WriteSub), Spelling(SubLang)]))
      else Success(head + [Flag(WriteSub), Valued(SubLang, t.subsLang[o.subsLang])] + tail)
    else Success(head + tail)
  }

  /** `_set_audio_options`: nothing unless converting to audio; then format, quality unless "mid", `-k`. */
  function AudioArgs(o: Options, t: Tables): (r: Result<seq<Arg>, KeyError>)
    ensures !o.toAudio ==> r == Success([])
    ensures r.Failure? <==> o.toAudio && o.audioQuality != "mid" && o.audioQuality !in t.audioQuality
    ensures r.Failure? ==> r.error == KeyError(o.audioQuality, [Spelling(ExtractAudio), Spelling(AudioFormat), o.audioFormat, Spelling(Quality)])
    ensures r.Success? && o.toAudio ==>
              && |r.value| >= 2 && r.value[0] == Flag(ExtractAudio) && r.value[1] == Valued(AudioFormat, o.audioFormat)
              && (Flag(KeepVideo) in r.value <==> o.keepVideo)
              && (o.audioQuality in t.audioQuality ==>
                    (Valued(Quality, t.audioQuality[o.audioQuality]) in r.value <==> o.audioQuality != "mid"))
              // nothing else, and the quality before `-k`
              && |r.value| == 2 + (if o.audioQuality != "mid" then 1 else 0) + (if o.keepVideo then 1 else 0)
              && (o.audioQuality != "mid" ==> r.value[2] == Valued(Quality, t.audioQuality[o.audioQuality]))
              && (o.keepVideo ==> r.value[|r.value| - 1] == Flag(KeepVideo))
  {
    if !o.toAudio then Success([])
    else
      var head := [Flag(ExtractAudio), Valued(AudioFormat, o.audioFormat)];
      var keep := When(o.keepVideo, Flag(KeepVideo));
      if o.audioQuality == "mid" then Success(head + keep)
      else if o.audioQuality !in t.audioQuality then
        Failure(KeyError(o.audioQuality, [Spelling(ExtractAudio), Spelling(AudioFormat), o.audioFormat, Spelling(Quality)]))
      else Success(head + [Valued(Quality, t.audioQuality[o.audioQuality])] + keep)
  }

  /** The words of `cmd_args`, each passed through to youtube-dl as it is. */
  function Extras(words: seq<string>): (r: seq<Arg>)
    ensures |r| == |words|
    ensures Flatten(r) == words
  {
    if words == [] then [] else [Extra(words[0])] + Extras(words[1..])
  }

  /** What `parse` has appended to `options_list` so far, and the key of the KeyError it raised, if any. */
  datatype Parsed = Parsed(argv: seq<string>, error: Option<string>)

  /** The next phase of `parse`: it runs only while nothing has raised. */
  function Then(p: Parsed, phase: Result<seq<Arg>, KeyError>): Parsed {
    if p.error.Some? then p
    else match phase
      case Success(args) => Parsed(p.argv + Flatten(args), None)
      case Failure(e) => Parsed(p.argv + e.emitted, Some(e.key))
  }

  /**
   * A phase appends the same items whatever `options_list` already held:
   * running it on the list `parse` has built from `base` continues the run.
   */
  lemma Advance(base: seq<string>, p: Parsed, before: seq<string>, after: seq<string>, error: Option<string>,
                phase: Result<seq<Arg>, KeyError>)
    requires p.error.None? && before == base + p.argv
    requires Parsed(after, error) == Then(Parsed(before, None), phase)
    ensures after == base + Then(p, phase).argv && error == Then(p, phase).error
  {
  }

  /** `parse`: the ten phases in their fixed order, from an empty list. */
  function ParseSpec(o: Options, fixPath: string -> string, isDash: string -> bool, t: Tables): Parsed {
    var progress := Then(Parsed([], None), Success([Flag(Newline)]));
    var output := Then(progress, Success(OutputArgs(o, fixPath)));
    var auth := Then(output, Success(AuthArgs(o)));
    var connection := Then(auth, Success(ConnectionArgs(o)));
    var video := Then(connection, VideoArgs(o, isDash, t));
    var playlist := Then(video, Success(PlaylistArgs(o)));
    var filesystem := Then(playlist, Success(FilesystemArgs(o)));
    var subtitles := Then(filesystem, SubtitlesArgs(o, t));
    var audio := Then(subtitles, AudioArgs(o, t));
    Then(audio, Success(Extras(Text.Words(o.cmdArgs))))
  }

  /** The lookups of lines 124, 128, 158 and 183 that can miss. */
  predicate LookupFails(o: Options, isDash: string -> bool, t: Tables) {
    || (o.videoFormat != "default" &&
        (o.videoFormat !in t.videoFormats || (MuxesDash(o, isDash) && o.dashAudioFormat !in t.dashAudioFormats)))
    || (o.writeSubs && o.subsLang !in t.subsLang)
    || (o.toAudio && o.audioQuality != "mid" && o.audioQuality !in t.audioQuality)
  }

  /** `parse` raises exactly when a lookup misses, and the key it names is one it looked up. */
  lemma ParseFailsIff(o: Options, fixPath: string -> string, isDash: string -> bool, t: Tables)
    ensures ParseSpec(o, fixPath, isDash, t).error.Some? <==> LookupFails(o, isDash, t)
    ensures ParseSpec(o, fixPath, isDash, t).error.Some? ==>
              ParseSpec(o, fixPath, isDash, t).error.value in {o.videoFormat, o.dashAudioFormat, o.subsLang, o.audioQuality}
  {
  }

  /** Every youtube-dl option `parse` emits for a record whose lookups all succeed, in order. */
  function Structured(o: Options, fixPath: string -> string, isDash: string -> bool, t: Tables): seq<Arg>
    requires !LookupFails(o, isDash, t)
  {
    [Flag(Newline)] + OutputArgs(o, fixPath) + AuthArgs(o) + ConnectionArgs(o)
      + VideoArgs(o, isDash, t).value + PlaylistArgs(o) + FilesystemArgs(o)
      + SubtitlesArgs(o, t).value + AudioArgs(o, t).value
  }

  /** Helper: one option flattens to its rendering. */
  lemma FlattenSingle(a: Arg)
    ensures Flatten([a]) == Render(a)
  {
    assert [a][1..] == [];
  }

  /** Helper: associativity of concatenation, stated for the Flatten proofs. */
  lemma AppendAssoc<T>(a: seq<T>, b: seq<T>, c: seq<T>)
    ensures a + b + c == a + (b + c)
  {
  }

  /** Helper: the same, for four sequences. */
  lemma AppendAssoc3<T>(s: seq<T>, a: seq<T>, b: seq<T>, c: seq<T>)
    ensures s + a + b + c == s + (a + b + c)
  {
  }

  /** Helper: `Flatten` over three runs. */
  lemma FlattenThree(a: seq<Arg>, b: seq<Arg>, c: seq<Arg>)
    ensures Flatten(a + b + c) == Flatten(a) + Flatten(b) + Flatten(c)
  {
    FlattenAppend(a + b, c);
    FlattenAppend(a, b);
  }

  /** Helper: two options flatten to their two renderings. */
  lemma FlattenPair(a: Arg, b: Arg)
    ensures Flatten([a, b]) == Render(a) + Render(b)
  {
    assert [a, b][1..] == [b];
    FlattenSingle(b);
  }

  /** Whatever the options, even when a lookup misses, the argv starts with `--newline` and then `-o`. */
  lemma ParseHead(o: Options, fixPath: string -> string, isDash: string -> bool, t: Tables)
    ensures var argv := ParseSpec(o, fixPath, isDash, t).argv;
            |argv| >= 2 && argv[0] == "--newline" && argv[1] == "-o"
  {
    var out := OutputArgs(o, fixPath);
    FlattenHead(out);
    FlattenSingle(Flag(Newline));
    var progress := Then(Parsed([], None), Success([Flag(Newline)]));
    assert progress.argv == ["--newline"];
    var output := Then(progress, Success(out));
    assert output.argv == ["--newline"] + Flatten(out);
    ChainKeeps(output, Success(AuthArgs(o)), Success(ConnectionArgs(o)), VideoArgs(o, isDash, t),
               Success(PlaylistArgs(o)), Success(FilesystemArgs(o)), SubtitlesArgs(o, t), AudioArgs(o, t),
               Success(Extras(Text.Words(o.cmdArgs))));
  }

  /** The first item of a sequence of options is the spelling of its first option. */
  lemma FlattenHead(args: seq<Arg>)
    requires |args| >= 1 && !args[0].Extra?
    ensures |Flatten(args)| >= 1 && Flatten(args)[0] == Spelling(args[0].opt)
  {
    assert Flatten(args) == Render(args[0]) + Flatten(args[1..]);
  }

  /** A phase only appends to `options_list`; once a phase has raised, none runs. */
  lemma ThenGrows(p: Parsed, phase: Result<seq<Arg>, KeyError>)
    ensures p.argv <= Then(p, phase).argv
    ensures p.error.Some? ==> Then(p, phase) == p
  {
  }

  /** Eight more phases keep the first two items of `options_list`. */
  lemma ChainKeeps(p: Parsed, r1: Result<seq<Arg>, KeyError>, r2: Result<seq<Arg>, KeyError>,
                   r3: Result<seq<Arg>, KeyError>, r4: Result<seq<Arg>, KeyError>, r5: Result<seq<Arg>, KeyError>,
                   r6: Result<seq<Arg>, KeyError>, r7: Result<seq<Arg>, KeyError>, r8: Result<seq<Arg>, KeyError>)
    requires |p.argv| >= 2
    ensures var q := Then(Then(Then(Then(Then(Then(Then(Then(p, r1), r2), r3), r4), r5), r6), r7), r8);
            |q.argv| >= 2 && q.argv[0] == p.argv[0] && q.argv[1] == p.argv[1]
  {
    var q1 := Then(p, r1);
    KeepsTwo(p, r1);
    var q2 := Then(q1, r2);
    KeepsTwo(q1, r2);
    var q3 := Then(q2, r3);
    KeepsTwo(q2, r3);
    var q4 := Then(q3, r4);
    KeepsTwo(q3, r4);
    var q5 := Then(q4, r5);
    KeepsTwo(q4, r5);
    var q6 := Then(q5, r6);
    KeepsTwo(q5, r6);
    var q7 := Then(q6, r7);
    KeepsTwo(q6, r7);
    KeepsTwo(q7, r8);
  }

  /** One more phase keeps the first two items of `options_list`. */
  lemma KeepsTwo(p: Parsed, r: Result<seq<Arg>, KeyError>)
    requires |p.argv| >= 2
    ensures |Then(p, r).argv| >= 2 && Then(p, r).argv[0] == p.argv[0] && Then(p, r).argv[1] == p.argv[1]
  {
  }

  /** A successful parse is the structured options followed by the words of `cmd_args`. */
  lemma {:induction false} ParseArgv(o: Options, fixPath: string -> string, isDash: string -> bool, t: Tables)
    requires !LookupFails(o, isDash, t)
    ensures ParseSpec(o, fixPath, isDash, t).argv == Flatten(Structured(o, fixPath, isDash, t)) + Text.Words(o.cmdArgs)
  {
    var a0 := [Flag(Newline)];
    var progress := Then(Parsed([], None), Success(a0));
    ThenStep(Parsed([], None), [], a0);
    assert [] + a0 == a0;
    var a1 := a0 + OutputArgs(o, fixPath);
    var output := Then(progress, Success(OutputArgs(o, fixPath)));
    ThenStep(progress, a0, OutputArgs(o, fixPath));
    var a2 := a1 + AuthArgs(o);
    var auth := Then(output, Success(AuthArgs(o)));
    ThenStep(output, a1, AuthArgs(o));
    var a3 := a2 + ConnectionArgs(o);
    var connection := Then(auth, Success(ConnectionArgs(o)));
    ThenStep(auth, a2, ConnectionArgs(o));
    var a4 := a3 + VideoArgs(o, isDash, t).value;
    var video := Then(connection, VideoArgs(o, isDash, t));
    ThenStep(connection, a3, VideoArgs(o, isDash, t).value);
    var a5 := a4 + PlaylistArgs(o);
    var playlist := Then(video, Success(PlaylistArgs(o)));
    ThenStep(video, a4, PlaylistArgs(o));
    var a6 := a5 + FilesystemArgs(o);
    var filesystem := Then(playlist, Success(FilesystemArgs(o)));
    ThenStep(playlist, a5, FilesystemArgs(o));
    var a7 := a6 + SubtitlesArgs(o, t).value;
    var subtitles := Then(filesystem, SubtitlesArgs(o, t));
    ThenStep(filesystem, a6, SubtitlesArgs(o, t).value);
    var a8 := a7 + AudioArgs(o, t).value;
    ThenStep(subtitles, a7, AudioArgs(o, t).value);
    assert a8 == Structured(o, fixPath, isDash, t);
  }

  /** A phase that succeeds after phases that succeeded: `options_list` is everything they emitted. */
  lemma ThenStep(p: Parsed, done: seq<Arg>, args: seq<Arg>)
    requires p == Parsed(Flatten(done), None)
    ensures Then(p, Success(args)) == Parsed(Flatten(done + args), None)
  {
    FlattenAppend(done, args);
  }

  lemma WhenWellFormed(c: bool, a: Arg)
    requires Proper(a)
    ensures WellFormed(When(c, a))
  {
  }

  lemma WellFormedAppend(a: seq<Arg>, b: seq<Arg>)
    requires WellFormed(a) && WellFormed(b)
    ensures WellFormed(a + b)
  {
  }

  /** `_set_auth_options` emits the three credentials and nothing else, each with its value. */
  lemma AuthOnly(o: Options)
    ensures forall a :: a in AuthArgs(o) ==>
              a in {Valued(Username, o.username), Valued(Password, o.password), Valued(VideoPassword, o.videoPassword)}
    ensures WellFormed(AuthArgs(o))
  {
  }

  /** `_set_connection_options` emits its four options and nothing else, each with its value. */
  lemma ConnectionOnly(o: Options)
    ensures forall a :: a in ConnectionArgs(o) ==>
              a in {Valued(Retries, Text.IntToString(o.retries)), Valued(Proxy, o.proxy),
                    Valued(UserAgent, o.userAgent), Valued(Referer, o.referer)}
    ensures WellFormed(ConnectionArgs(o))
  {
  }

  /** `_set_playlist_options` emits its three options and nothing else, each with its value. */
  lemma PlaylistOnly(o: Options)
    ensures forall a :: a in PlaylistArgs(o) ==>
              a in {Valued(PlaylistStart, Text.IntToString(o.playlistStart)),
                    Valued(PlaylistEnd, Text.IntToString(o.playlistEnd)),
                    Valued(MaxDownloads, Text.IntToString(o.maxDownloads))}
    ensures WellFormed(PlaylistArgs(o))
  {
  }

  /** `_set_filesystem_options` emits its four switches and two limits and nothing else. */
  lemma FilesystemOnly(o: Options)
    ensures forall a :: a in FilesystemArgs(o) ==>
              a in {Flag(IgnoreErrors), Flag(WriteDescription), Flag(WriteInfoJson), Flag(WriteThumbnail),
                    Valued(MinFilesize, o.minFilesize), Valued(MaxFilesize, o.maxFilesize)}
  {
    var w1 := When(o.ignoreErrors, Flag(IgnoreErrors));
    var w2 := When(o.writeDescription, Flag(WriteDescription));
    var w3 := When(o.writeInfo, Flag(WriteInfoJson));
    var w4 := When(o.writeThumbnail, Flag(WriteThumbnail));
    var w5 := When(o.minFilesize != "0", Valued(MinFilesize, o.minFilesize));
    var w6 := When(o.maxFilesize != "0", Valued(MaxFilesize, o.maxFilesize));
    var r := FilesystemArgs(o);
    assert r == w1 + w2 + w3 + w4 + w5 + w6;
    forall a | a in r
      ensures a in {Flag(IgnoreErrors), Flag(WriteDescription), Flag(WriteInfoJson), Flag(WriteThumbnail),
                    Valued(MinFilesize, o.minFilesize), Valued(MaxFilesize, o.maxFilesize)}
    {
      assert a in w1 + w2 + w3 + w4 + w5 || a in w6;
      assert a in w1 + w2 + w3 + w4 || a in w5 || a in w6;
      assert a in w1 + w2 || a in w3 || a in w4 || a in w5 || a in w6;
    }
  }

  lemma FilesystemWellFormed(o: Options)
    ensures WellFormed(FilesystemArgs(o))
  {
    var w1 := When(o.ignoreErrors, Flag(IgnoreErrors));
    var w2 := When(o.writeDescription, Flag(WriteDescription));
    var w3 := When(o.writeInfo, Flag(WriteInfoJson));
    var w4 := When(o.writeThumbnail, Flag(WriteThumbnail));
    var w5 := When(o.minFilesize != "0", Valued(MinFilesize, o.minFilesize));
    var w6 := When(o.maxFilesize != "0", Valued(MaxFilesize, o.maxFilesize));
    WhenWellFormed(o.ignoreErrors, Flag(IgnoreErrors));
    WhenWellFormed(o.writeDescription, Flag(WriteDescription));
    WhenWellFormed(o.writeInfo, Flag(WriteInfoJson));
    WhenWellFormed(o.writeThumbnail, Flag(WriteThumbnail));
    WhenWellFormed(o.minFilesize != "0", Valued(MinFilesize, o.minFilesize));
    WhenWellFormed(o.maxFilesize != "0", Valued(MaxFilesize, o.maxFilesize));
    WellFormedAppend(w1, w2);
    WellFormedAppend(w1 + w2, w3);
    WellFormedAppend(w1 + w2 + w3, w4);
    WellFormedAppend(w1 + w2 + w3 + w4, w5);
    WellFormedAppend(w1 + w2 + w3 + w4 + w5, w6);
  }

  /** `_set_subtitles_options` emits its four switches and the language code and nothing else. */
  lemma SubtitlesOnly(o: Options, t: Tables)
    requires SubtitlesArgs(o, t).Success?
    ensures forall a :: a in SubtitlesArgs(o, t).value ==>
              || a in {Flag(AllSubs), Flag(WriteAutoSub), Flag(WriteSub), Flag(EmbedSubs)}
              || (o.writeSubs && a == Valued(SubLang, t.subsLang[o.subsLang]))
  {
    var w1 := When(o.writeAllSubs, Flag(AllSubs));
    var w2 := When(o.writeAutoSubs, Flag(WriteAutoSub));
    var tail := When(o.embedSubs, Flag(EmbedSubs));
    var r := SubtitlesArgs(o, t).value;
    var mid := if o.writeSubs then [Flag(WriteSub), Valued(SubLang, t.subsLang[o.subsLang])] else [];
    assert r == w1 + w2 + mid + tail;
    forall a | a in r
      ensures || a in {Flag(AllSubs), Flag(WriteAutoSub), Flag(WriteSub), Flag(EmbedSubs)}
              || (o.writeSubs && a == Valued(SubLang, t.subsLang[o.subsLang]))
    {
      assert a in w1 + w2 + mid || a in tail;
      assert a in w1 || a in w2 || a in mid || a in tail;
    }
  }

  /** `--write-sub` is always followed by `--sub-lang` and the looked-up language code. */
  lemma SubLangFollowsWriteSub(o: Options, t: Tables)
    requires SubtitlesArgs(o, t).Success?
    ensures var r := SubtitlesArgs(o, t).value;
            forall i :: 0 <= i < |r| && r[i] == Flag(WriteSub) ==>
              i + 1 < |r| && r[i + 1] == Valued(SubLang, t.subsLang[o.subsLang])
    ensures WellFormed(SubtitlesArgs(o, t).value)
  {
    var head := SubtitlesHead(o);
    var tail := When(o.embedSubs, Flag(EmbedSubs));
    SubtitlesParts(o);
    if o.writeSubs {
      var code := Valued(SubLang, t.subsLang[o.subsLang]);
      assert SubtitlesArgs(o, t).value == head + [Flag(WriteSub), code] + tail;
      Follows(head, Flag(WriteSub), code, tail);
      WellFormedAppend(head, [Flag(WriteSub), code]);
      WellFormedAppend(head + [Flag(WriteSub), code], tail);
    } else {
      assert SubtitlesArgs(o, t).value == head + tail;
      WellFormedAppend(head, tail);
    }
  }

  /** The switches around `--write-sub` are proper and are not `--write-sub`. */
  lemma SubtitlesParts(o: Options)
    ensures WellFormed(SubtitlesHead(o)) && Flag(WriteSub) !in SubtitlesHead(o)
    ensures WellFormed(When(o.embedSubs, Flag(EmbedSubs))) && Flag(WriteSub) !in When(o.embedSubs, Flag(EmbedSubs))
  {
    WhenWellFormed(o.writeAllSubs, Flag(AllSubs));
    WhenWellFormed(o.writeAutoSubs, Flag(WriteAutoSub));
    WellFormedAppend(When(o.writeAllSubs, Flag(AllSubs)), When(o.writeAutoSubs, Flag(WriteAutoSub)));
    WhenWellFormed(o.embedSubs, Flag(EmbedSubs));
    WhenOnly(o.writeAllSubs, Flag(AllSubs), Flag(WriteSub));
    WhenOnly(o.writeAutoSubs, Flag(WriteAutoSub), Flag(WriteSub));
    WhenOnly(o.embedSubs, Flag(EmbedSubs), Flag(WriteSub));
  }

  /** A guarded append holds no option but its own. */
  lemma WhenOnly(c: bool, a: Arg, b: Arg)
    requires a != b
    ensures b !in When(c, a)
  {
  }

  /** In `head + [x, y] + tail`, with no other `x`, every `x` is followed by `y`. */
  lemma Follows<T>(head: seq<T>, x: T, y: T, tail: seq<T>)
    requires x !in head && x !in tail && x != y
    ensures var r := head + [x, y] + tail;
            forall i :: 0 <= i < |r| && r[i] == x ==> i + 1 < |r| && r[i + 1] == y
  {
    var r := head + [x, y] + tail;
    forall i | 0 <= i < |r| && r[i] == x
      ensures i + 1 < |r| && r[i + 1] == y
    {
      assert i == |head| by {
        assert r[i] !in head && r[i] != y && r[i] !in tail;
      }
    }
  }

  /** `-o` brings its target, and the restriction switch stands alone, for the three known formats. */
  lemma OutputWellFormed(o: Options, fixPath: string -> string)
    requires o.outputFormat in {"id", "title", "custom"}
    ensures WellFormed(OutputArgs(o, fixPath))
  {
    var r := OutputArgs(o, fixPath);
    assert r[0] == Valued(Output, OutputTarget(o, fixPath).value);
    assert r == [r[0]] + When(o.restrictFilenames, Flag(RestrictFilenames));
  }

  /** The video and audio phases, when they succeed, emit only proper options. */
  lemma MediaWellFormed(o: Options, isDash: string -> bool, t: Tables)
    ensures VideoArgs(o, isDash, t).Success? ==> WellFormed(VideoArgs(o, isDash, t).value)
    ensures AudioArgs(o, t).Success? ==> WellFormed(AudioArgs(o, t).value)
  {
  }

  /** Each phase emits only proper options, except `_set_output_options` for an unknown format. */
  lemma PhasesWellFormed(o: Options, fixPath: string -> string, isDash: string -> bool, t: Tables)
    requires !LookupFails(o, isDash, t)
    requires o.outputFormat in {"id", "title", "custom"}
    ensures WellFormed(Structured(o, fixPath, isDash, t))
  {
    var s1 := [Flag(Newline)] + OutputArgs(o, fixPath);
    assert WellFormed(s1) by {
      OutputWellFormed(o, fixPath);
      WellFormedAppend([Flag(Newline)], OutputArgs(o, fixPath));
    }
    var s2 := s1 + AuthArgs(o);
    assert WellFormed(s2) by {
      AuthOnly(o);
      WellFormedAppend(s1, AuthArgs(o));
    }
    var s3 := s2 + ConnectionArgs(o);
    assert WellFormed(s3) by {
      ConnectionOnly(o);
      WellFormedAppend(s2, ConnectionArgs(o));
    }
    var s4 := s3 + VideoArgs(o, isDash, t).value;
    assert WellFormed(s4) by {
      MediaWellFormed(o, isDash, t);
      WellFormedAppend(s3, VideoArgs(o, isDash, t).value);
    }
    var s5 := s4 + PlaylistArgs(o);
    assert WellFormed(s5) by {
      PlaylistOnly(o);
      WellFormedAppend(s4, PlaylistArgs(o));
    }
    var s6 := s5 + FilesystemArgs(o);
    assert WellFormed(s6) by {
      FilesystemWellFormed(o);
      WellFormedAppend(s5, FilesystemArgs(o));
    }
    var s7 := s6 + SubtitlesArgs(o, t).value;
    assert WellFormed(s7) by {
      SubLangFollowsWriteSub(o, t);
      WellFormedAppend(s6, SubtitlesArgs(o, t).value);
    }
    MediaWellFormed(o, isDash, t);
    WellFormedAppend(s7, AudioArgs(o, t).value);
  }

  /**
   * A successful parse with a known output format is read back by arity as
   * exactly the structured options, before whatever `cmd_args` contributes.
   */
  lemma ParseDecodes(o: Options, fixPath: string -> string, isDash: string -> bool, t: Tables)
    requires !LookupFails(o, isDash, t)
    requires o.outputFormat in {"id", "title", "custom"}
    ensures Decode(ParseSpec(o, fixPath, isDash, t).argv) == Structured(o, fixPath, isDash, t) + Decode(Text.Words(o.cmdArgs))
  {
    ParseArgv(o, fixPath, isDash, t);
    PhasesWellFormed(o, fixPath, isDash, t);
    DecodeFlatten(Structured(o, fixPath, isDash, t), Text.Words(o.cmdArgs));
  }

  /** Every option at its default: nothing is emitted but `--newline` and the output target. */
  predicate AllDefaults(o: Options) {
    && o.username == "" && o.password == "" && o.videoPassword == ""
    && o.retries == 10 && o.proxy == "" && o.userAgent == "" && o.referer == ""
    && o.videoFormat == "default"
    && o.playlistStart == 1 && o.playlistEnd == 0 && o.maxDownloads == 0
    && !o.ignoreErrors && !o.writeDescription && !o.writeInfo && !o.writeThumbnail
    && o.minFilesize == "0" && o.maxFilesize == "0"
    && !o.writeAllSubs && !o.writeAutoSubs && !o.writeSubs && !o.embedSubs
    && !o.toAudio && !o.restrictFilenames && o.cmdArgs == ""
  }

  lemma MinimalArgv(o: Options, fixPath: string -> string, isDash: string -> bool, t: Tables)
    requires AllDefaults(o)
    requires o.outputFormat in {"id", "title", "custom"}
    ensures ParseSpec(o, fixPath, isDash, t).argv == ["--newline", "-o", OutputTarget(o, fixPath).value]
    ensures ParseSpec(o, fixPath, isDash, t).error == None
  {
    var out := Valued(Output, OutputTarget(o, fixPath).value);
    DefaultPhases(o, fixPath, isDash, t);
    ParseArgv(o, fixPath, isDash, t);
    assert Text.Words(o.cmdArgs) == [] by {
      Text.FieldsBlank(o.cmdArgs, Text.Whitespace);
    }
    FlattenPair(Flag(Newline), out);
  }

  /** At the defaults every phase after `-o` emits nothing. */
  lemma DefaultPhases(o: Options, fixPath: string -> string, isDash: string -> bool, t: Tables)
    requires AllDefaults(o)
    requires o.outputFormat in {"id", "title", "custom"}
    ensures !LookupFails(o, isDash, t)
    ensures Structured(o, fixPath, isDash, t) == [Flag(Newline), Valued(Output, OutputTarget(o, fixPath).value)]
  {
    assert AuthArgs(o) == [] && ConnectionArgs(o) == [] && VideoArgs(o, isDash, t).value == [];
    assert PlaylistArgs(o) == [] && FilesystemArgs(o) == [];
    assert SubtitlesArgs(o, t).value == [] && AudioArgs(o, t).value == [];
    assert OutputArgs(o, fixPath) == [Valued(Output, OutputTarget(o, fixPath).value)];
    assert !LookupFails(o, isDash, t);
    assert [Flag(Newline)] + OutputArgs(o, fixPath) == [Flag(Newline), Valued(Output, OutputTarget(o, fixPath).value)];
  }

  /** The parser object: the options it was given, and `options_list`, which it only appends to. */
  class OptionsParser {
    const options: Options
    const fixPath: string -> string
    const isDash: string -> bool
    const tables: Tables
    var optionsList: seq<string>

    /** `__init__`: an empty `options_list`. */
    constructor(options: Options, fixPath: string -> string, isDash: string -> bool)
      ensures this.options == options && this.fixPath == fixPath && this.isDash == isDash
      ensures tables == SourceTables
      ensures optionsList == []
    {
      this.options := options;
      this.fixPath := fixPath;
      this.isDash := isDash;
      tables := SourceTables;
      optionsList := [];
    }

    /** Append one option as its argv items. */
    method Emit(a: Arg)
      modifies this`optionsList
      ensures optionsList == old(optionsList) + Render(a)
    {
      match a
      case Flag(o) =>
        optionsList := optionsList + [Spelling(o)];
      case Valued(o, v) =>
        optionsList := optionsList + [Spelling(o)];
        optionsList := optionsList + [v];
      case Extra(w) =>
        optionsList := optionsList + [w];
    }

    /** One guarded append of a `_set_*` method, on top of what the method has appended so far. */
    method EmitWhen(c: bool, a: Arg, ghost start: seq<string>, ghost done: seq<Arg>)
      requires optionsList == start + Flatten(done)
      modifies this`optionsList
      ensures optionsList == start + Flatten(done + When(c, a))
    {
      FlattenAppend(done, When(c, a));
      if c {
        Emit(a);
        assert Flatten([a]) == Render(a) + Flatten([]);
      }
    }

    /** `_set_progress_options`. */
    method SetProgressOptions()
      modifies this`optionsList
      ensures optionsList == old(optionsList) + [Spelling(Newline)]
    {
      optionsList := optionsList + [Spelling(Newline)];
    }

    /** `_set_output_options`. */
    method SetOutputOptions()
      modifies this`optionsList
      ensures optionsList == old(optionsList) + Flatten(OutputArgs(options, fixPath))
    {
      var savePath := fixPath(options.savePath);
      optionsList := optionsList + [Spelling(Output)];
      if options.outputFormat == "id" {
        optionsList := optionsList + [savePath + IdTemplate];
      } else if options.outputFormat == "title" {
        optionsList := optionsList + [savePath + TitleTemplate];
      } else if options.outputFormat == "custom" {
        optionsList := optionsList + [savePath + options.outputTemplate];
      }
      if options.restrictFilenames {
        optionsList := optionsList + [Spelling(RestrictFilenames)];
      }
      var out := OutputArgs(options, fixPath);
      FlattenAppend([out[0]], out[1..]);
      assert out == [out[0]] + out[1..];
      assert Flatten([out[0]]) == Render(out[0]);
    }

    /** `_set_auth_options`. */
    method SetAuthOptions()
      modifies this`optionsList
      ensures optionsList == old(optionsList) + Flatten(AuthArgs(options))
    {
      ghost var start := optionsList;
      ghost var done: seq<Arg> := [];
      EmitWhen(options.username != "", Valued(Username, options.username), start, done);
      done := done + When(options.username != "", Valued(Username, options.username));
      EmitWhen(options.password != "", Valued(Password, options.password), start, done);
      done := done + When(options.password != "", Valued(Password, options.password));
      EmitWhen(options.videoPassword != "", Valued(VideoPassword, options.videoPassword), start, done);
      assert [] + When(options.username != "", Valued(Username, options.username)) == When(options.username != "", Valued(Username, options.username));
    }

    /** `_set_connection_options`. */
    method SetConnectionOptions()
      modifies this`optionsList
      ensures optionsList == old(optionsList) + Flatten(ConnectionArgs(options))
    {
      ghost var start := optionsList;
      ghost var done: seq<Arg> := [];
      var retries := Valued(Retries, Text.IntToString(options.retries));
      EmitWhen(options.retries != 10, retries, start, done);
      done := done + When(options.retries != 10, retries);
      EmitWhen(options.proxy != "", Valued(Proxy, options.proxy), start, done);
      done := done + When(options.proxy != "", Valued(Proxy, options.proxy));
      EmitWhen(options.userAgent != "", Valued(UserAgent, options.userAgent), start, done);
      done := done + When(options.userAgent != "", Valued(UserAgent, options.userAgent));
      EmitWhen(options.referer != "", Valued(Referer, options.referer), start, done);
      assert [] + When(options.retries != 10, retries) == When(options.retries != 10, retries);
    }

    /** `_set_video_options`; a missing table entry ends it with the key, as the KeyError does. */
    method SetVideoOptions() returns (error: Option<string>)
      modifies this`optionsList
      ensures Parsed(optionsList, error) == Then(Parsed(old(optionsList), None), VideoArgs(options, isDash, tables))
    {
      error := None;
      if options.videoFormat != "default" {
        optionsList := optionsList + [Spelling(Format)];
        if options.videoFormat !in tables.videoFormats {
          return Some(options.videoFormat);
        }
        var videoFormat := tables.videoFormats[options.videoFormat];
        if isDash(options.videoFormat) {
          if isDash(options.dashAudioFormat) {
            if options.dashAudioFormat !in tables.dashAudioFormats {
              return Some(options.dashAudioFormat);
            }
            videoFormat := videoFormat + "+" + tables.dashAudioFormats[options.dashAudioFormat];
          }
        }
        optionsList := optionsList + [videoFormat];
        FlattenSingle(Valued(Format, videoFormat));
      } else {
        assert optionsList + Flatten([]) == optionsList;
      }
    }

    /** `_set_playlist_options`. */
    method SetPlaylistOptions()
      modifies this`optionsList
      ensures optionsList == old(optionsList) + Flatten(PlaylistArgs(options))
    {
      ghost var start := optionsList;
      ghost var done: seq<Arg> := [];
      var first := Valued(PlaylistStart, Text.IntToString(options.playlistStart));
      var last := Valued(PlaylistEnd, Text.IntToString(options.playlistEnd));
      var most := Valued(MaxDownloads, Text.IntToString(options.maxDownloads));
      EmitWhen(options.playlistStart != 1, first, start, done);
      done := done + When(options.playlistStart != 1, first);
      EmitWhen(options.playlistEnd != 0, last, start, done);
      done := done + When(options.playlistEnd != 0, last);
      EmitWhen(options.maxDownloads != 0, most, start, done);
      assert [] + When(options.playlistStart != 1, first) == When(options.playlistStart != 1, first);
    }

    /** `_set_filesystem_options`. */
    method SetFilesystemOptions()
      modifies this`optionsList
      ensures optionsList == old(optionsList) + Flatten(FilesystemArgs(options))
    {
      ghost var start := optionsList;
      ghost var done: seq<Arg> := [];
      EmitWhen(options.ignoreErrors, Flag(IgnoreErrors), start, done);
      done := done + When(options.ignoreErrors, Flag(IgnoreErrors));
      EmitWhen(options.writeDescription, Flag(WriteDescription), start, done);
      done := done + When(options.writeDescription, Flag(WriteDescription));
      EmitWhen(options.writeInfo, Flag(WriteInfoJson), start, done);
      done := done + When(options.writeInfo, Flag(WriteInfoJson));
      EmitWhen(options.writeThumbnail, Flag(WriteThumbnail), start, done);
      done := done + When(options.writeThumbnail, Flag(WriteThumbnail));
      EmitWhen(options.minFilesize != "0", Valued(MinFilesize, options.minFilesize), start, done);
      done := done + When(options.minFilesize != "0", Valued(MinFilesize, options.minFilesize));
      EmitWhen(options.maxFilesize != "0", Valued(MaxFilesize, options.maxFilesize), start, done);
      assert [] + When(options.ignoreErrors, Flag(IgnoreErrors)) == When(options.ignoreErrors, Flag(IgnoreErrors));
    }

    /** `_set_subtitles_options`; an unknown language ends it after `--write-sub --sub-lang`. */
    method SetSubtitlesOptions() returns (error: Option<string>)
      modifies this`optionsList
      ensures Parsed(optionsList, error) == Then(Parsed(old(optionsList), None), SubtitlesArgs(options, tables))
    {
      ghost var start := optionsList;
      EmitWhen(options.writeAllSubs, Flag(AllSubs), start, []);
      EmitWhen(options.writeAutoSubs, Flag(WriteAutoSub), start, When(options.writeAllSubs, Flag(AllSubs)));
      assert [] + When(options.writeAllSubs, Flag(AllSubs)) == When(options.writeAllSubs, Flag(AllSubs));
      ghost var head := SubtitlesHead(options);
      assert optionsList == start + Flatten(head);
      ghost var language: seq<Arg> := [];
      error := None;
      if options.writeSubs {
        error := EmitLanguage();
        if error.Some? {
          AppendAssoc(start, Flatten(head), [Spelling(WriteSub), Spelling(SubLang)]);
          return;
        }
        language := LanguageArgs(options, tables).value;
        FlattenAppend(head, language);
        AppendAssoc(start, Flatten(head), Flatten(language));
      } else {
        assert head + language == head;
      }
      EmitWhen(options.embedSubs, Flag(EmbedSubs), start, head + language);
      ghost var tail := When(options.embedSubs, Flag(EmbedSubs));
      assert SubtitlesArgs(options, tables).value == head + language + tail;
    }

    /** `--write-sub --sub-lang` and the language code, or the KeyError of a language missing from its table. */
    method EmitLanguage() returns (error: Option<string>)
      modifies this`optionsList
      ensures Parsed(optionsList, error) == Then(Parsed(old(optionsList), None), LanguageArgs(options, tables))
    {
      optionsList := optionsList + [Spelling(WriteSub)];
      optionsList := optionsList + [Spelling(SubLang)];
      if options.subsLang !in tables.subsLang {
        return Some(options.subsLang);
      }
      var code := tables.subsLang[options.subsLang];
      optionsList := optionsList + [code];
      FlattenPair(Flag(WriteSub), Valued(SubLang, code));
      error := None;
    }

    /** `_set_audio_options`; an unknown quality ends it after `--audio-quality`. */
    method SetAudioOptions() returns (error: Option<string>)
      modifies this`optionsList
      ensures Parsed(optionsList, error) == Then(Parsed(old(optionsList), None), AudioArgs(options, tables))
    {
      error := None;
      if options.toAudio {
        ghost var start := optionsList;
        optionsList := optionsList + [Spelling(ExtractAudio)];
        optionsList := optionsList + [Spelling(AudioFormat)];
        optionsList := optionsList + [options.audioFormat];
        ghost var done := [Flag(ExtractAudio), Valued(AudioFormat, options.audioFormat)];
        FlattenPair(Flag(ExtractAudio), Valued(AudioFormat, options.audioFormat));
        assert optionsList == start + Flatten(done);
        if options.audioQuality != "mid" {
          optionsList := optionsList + [Spelling(Quality)];
          if options.audioQuality !in tables.audioQuality {
            return Some(options.audioQuality);
          }
          optionsList := optionsList + [tables.audioQuality[options.audioQuality]];
          var quality := Valued(Quality, tables.audioQuality[options.audioQuality]);
          FlattenAppend(done, [quality]);
          FlattenSingle(quality);
          done := done + [quality];
        }
        EmitWhen(options.keepVideo, Flag(KeepVideo), start, done);
        assert AudioArgs(options, tables).value == done + When(options.keepVideo, Flag(KeepVideo));
      } else {
        assert optionsList + Flatten([]) == optionsList;
      }
    }

    /** `_set_other_options`: the whitespace-separated words of `cmd_args`, in order. */
    method SetOtherOptions()
      modifies this`optionsList
      ensures optionsList == old(optionsList) + Text.Words(options.cmdArgs)
    {
      if options.cmdArgs != "" {
        var words := Text.Words(options.cmdArgs);
        ghost var start := optionsList;
        for i := 0 to |words|
          invariant optionsList == start + words[..i]
        {
          optionsList := optionsList + [words[i]];
          assert words[..i + 1] == words[..i] + [words[i]];
        }
        assert words[..|words|] == words;
      } else {
        Text.FieldsBlank(options.cmdArgs, Text.Whitespace);
      }
    }

    /**
     * `parse`: the ten phases in order. What it returns is the whole of
     * `options_list`, which earlier calls may already have filled; a KeyError
     * is returned as its key.
     */
    method Parse() returns (argv: seq<string>, error: Option<string>)
      modifies this`optionsList
      ensures optionsList == old(optionsList) + ParseSpec(options, fixPath, isDash, tables).argv
      ensures error == ParseSpec(options, fixPath, isDash, tables).error
      ensures argv == optionsList
    {
      ghost var base := optionsList;
      ghost var p := Parsed([], None);
      ghost var before := optionsList;
      SetProgressOptions();
      FlattenSingle(Flag(Newline));
      Advance(base, p, before, optionsList, None, Success([Flag(Newline)]));
      p := Then(p, Success([Flag(Newline)]));
      before := optionsList;
      SetOutputOptions();
      Advance(base, p, before, optionsList, None, Success(OutputArgs(options, fixPath)));
      p := Then(p, Success(OutputArgs(options, fixPath)));
      before := optionsList;
      SetAuthOptions();
      Advance(base, p, before, optionsList, None, Success(AuthArgs(options)));
      p := Then(p, Success(AuthArgs(options)));
      before := optionsList;
      SetConnectionOptions();
      Advance(base, p, before, optionsList, None, Success(ConnectionArgs(options)));
      p := Then(p, Success(ConnectionArgs(options)));
      before := optionsList;
      error := SetVideoOptions();
      Advance(base, p, before, optionsList, error, VideoArgs(options, isDash, tables));
      p := Then(p, VideoArgs(options, isDash, tables));
      if error.None? {
        before := optionsList;
        SetPlaylistOptions();
        Advance(base, p, before, optionsList, None, Success(PlaylistArgs(options)));
      }
      p := Then(p, Success(PlaylistArgs(options)));
      if error.None? {
        before := optionsList;
        SetFilesystemOptions();
        Advance(base, p, before, optionsList, None, Success(FilesystemArgs(options)));
      }
      p := Then(p, Success(FilesystemArgs(options)));
      if error.None? {
        before := optionsList;
        error := SetSubtitlesOptions();
        Advance(base, p, before, optionsList, error, SubtitlesArgs(options, tables));
      }
      p := Then(p, SubtitlesArgs(options, tables));
      if error.None? {
        before := optionsList;
        error := SetAudioOptions();
        Advance(base, p, before, optionsList, error, AudioArgs(options, tables));
      }
      p := Then(p, AudioArgs(options, tables));
      if error.None? {
        before := optionsList;
        SetOtherOptions();
        Advance(base, p, before, optionsList, None, Success(Extras(Text.Words(options.cmdArgs))));
      }
      p := Then(p, Success(Extras(Text.Words(options.cmdArgs))));
      argv := optionsList;
    }
  }

  /**
   * `options_list` is never cleared: a second `parse` returns the first
   * result twice over. `first` is the list as the first call left it; in the
   * source both calls return the same list object.
   */
  method ParseTwice(o: Options, fixPath: string -> string, isDash: string -> bool) returns (first: seq<string>, second: seq<string>)
    ensures ParseSpec(o, fixPath, isDash, SourceTables).error == None ==>
              first == ParseSpec(o, fixPath, isDash, SourceTables).argv && second == first + first
  {
    var parser := new OptionsParser(o, fixPath, isDash);
    var e1, e2;
    first, e1 := parser.Parse();
    second, e2 := parser.Parse();
  }
}
