# youtube-dl-gui: the download driver and the option translator

This project models two parts of youtube-dl-gui, a desktop front end for youtube-dl, and proves properties of them.

**The download driver** (`youtube_dl_gui/DownloadObject.py`):
- `extract_data` turns one line of youtube-dl's stdout into a sparse progress event.
- `DownloadObject` starts youtube-dl and reads its stdout and stderr one line per loop pass.
- It merges every event into an eight-key progress record and hands that record to `data_hook`.
- It keeps the list of files that youtube-dl names.
- It settles on one of four return codes: OK, ERROR, STOPPED or ALREADY.

**The option translator** (`youtube_dl_gui/OptionsParser.py`):
- `OptionsParser.parse` turns the GUI's option record into youtube-dl's argument vector.
- It runs ten `_set_*_options` phases in a fixed order, and each phase appends to `options_list`.
- The four lookup tables of the source are constants.

The files:
- `wrappers.dfy` holds `Option` and `Result`.
- `text.dfy` holds the Python string operations the source relies on: `split`, `join`, `rstrip`, `os.path.basename` and `str(int)`.
- `progress_line.dfy` models `extract_data`.
- `download_object.dfy` models the class `DownloadObject`.
- `options_parser.dfy` models the tables, `parse` and every `_set_*_options`.

How the driver is modelled:
- The whole state of a `DownloadObject` is the value `Supervised`, and each operation is a function on it: `Merge`, `ReadLines`, `StopSpec`, `IterateSpec`, `Loop` and `DownloadSpec`.
- The class `DownloadObject` holds the same state in fields. Each of its methods does what the source does step by step, and its contract says it computes the matching function.
- The child process is the lines its two pipes will carry, plus a schedule.
- In the schedule, one `Iterate` stands for each loop pass in which `poll()` says the process is alive.
- A `StopRequest` is a call of `stop()` from another thread between two passes.
- The end of the schedule is the moment the process exits.

How the option translator is modelled:
- Every phase is a function that returns the options it emits, as `Arg` values.
- `Flatten` writes those out as argv items.
- `Decode` reads an argv back by the arity of each option: an item that spells an option exactly is that option, and an option that takes a value consumes the next item.
- `DecodeFlatten` proves that reading the argv back gives the options again, so facts about the phases are facts about the argv itself.
- The class `OptionsParser` appends to `optionsList` as the source does, and each method is proved against its phase function.

Behaviour of the code that is easy to miss, and that the model keeps:
- A `[download]` line that is too short raises IndexError in `extract_data`, and the exception leaves `download`. The model returns `Failure(IndexError)` and `Outcome.RaisedIndexError`; `Truncated` states exactly which lines do this.
- A stop does not always yield STOPPED: a stderr line or an "already downloaded" line read after `stop()` overwrites the code (`StopThenError`).
- `download` resets only the return code: `_data` and `files_list` carry over to the next `download` (`Started`, `ImmediateExit`).
- The playlist index and size are kept as the strings read from the line, not as integers.
- For an output format other than `id`, `title` or `custom`, the code appends a bare `-o` with no path after it (see `OutputArgs`).
- The `100%` line sets speed and eta to the empty string and leaves percent unset, as written.

## Model

| member | source | states |
|---|---|---|
| Text.Fields | youtube_dl_gui/DownloadObject.py:230 | every token of a split line is non-empty and free of the separator |
| Text.SplitOn | youtube_dl_gui/DownloadObject.py:230 | `split(' ')` yields at least one piece and no piece holds a separator |
| Text.JoinSplit | youtube_dl_gui/DownloadObject.py:230 | joining the pieces of a split with the same separator restores the string |
| Text.FieldsJoin | youtube_dl_gui/DownloadObject.py:230-242 | splitting a space-join of non-empty, space-free words gives the words back |
| Text.FieldsBlank | youtube_dl_gui/OptionsParser.py:188-189 | a string has no tokens exactly when it is made only of separators |
| Text.NonEmpty | youtube_dl_gui/DownloadObject.py:230 | the filter keeps only non-empty pieces, each taken from the input |
| Text.RStrip | youtube_dl_gui/DownloadObject.py:188 | the result is a prefix, does not end in whitespace, and only whitespace was cut |
| Text.Basename | youtube_dl_gui/DownloadObject.py:134 | the base name is no longer than the path |
| Text.BasenameSuffix | youtube_dl_gui/DownloadObject.py:134 | the base name is the '/'-free suffix of the path, preceded by '/' when shorter than the path |
| Text.NatToString | youtube_dl_gui/OptionsParser.py:87 | `str(n)` is a non-empty string of decimal digits |
| Text.IntToString | youtube_dl_gui/OptionsParser.py:109 | `str(i)` is non-empty and starts with '-' exactly for negative numbers |
| Text.DecimalRoundTrip | youtube_dl_gui/OptionsParser.py:87 | reading the digits of `str(n)` back gives `n` |
| Text.IntRoundTrip | youtube_dl_gui/OptionsParser.py:109 | `int(str(i)) == i` for every integer |
| ProgressLine.NameFields | youtube_dl_gui/DownloadObject.py:241-242 | the file name is set exactly after `Destination:`, as the rest of the line rejoined by spaces |
| ProgressLine.ProgressFields | youtube_dl_gui/DownloadObject.py:245-253 | no field without '%'; `100%` clears speed and eta only; any other percentage sets tokens 0, 2, 4 and 6 |
| ProgressLine.PlaylistFields | youtube_dl_gui/DownloadObject.py:256-258 | playlist index and size exactly for `Downloading video`, from tokens 2 and 4 |
| ProgressLine.DownloadEvent | youtube_dl_gui/DownloadObject.py:237-262 | a `[download]` line always sets the status, Already Downloaded exactly when the last token is `downloaded` |
| ProgressLine.DownloadEventName | youtube_dl_gui/DownloadObject.py:240-242 | in the whole event, the file name is set exactly for a destination line, to the rejoined rest |
| ProgressLine.DownloadEventProgress | youtube_dl_gui/DownloadObject.py:244-253 | in the whole event, `100%` clears speed and eta and sets neither percent nor size; another percentage sets all four |
| ProgressLine.DownloadEventPlaylist | youtube_dl_gui/DownloadObject.py:255-258 | in the whole event, the playlist fields are set together, exactly for `Downloading video`, from tokens 2 and 4 |
| ProgressLine.Classify | youtube_dl_gui/DownloadObject.py:232-270 | empty event exactly for no tokens; IndexError exactly for truncated `[download]` lines; `[ffmpeg]` is Post Processing; any other header is Pre Processing |
| ProgressLine.ExtractData | youtube_dl_gui/DownloadObject.py:226-233 | the event is empty exactly for lines made only of spaces |
| ProgressLine.DestinationEvent | youtube_dl_gui/DownloadObject.py:237-242 | the tokens after `Destination:` give exactly the status Downloading and the file name |
| ProgressLine.DestinationWords | youtube_dl_gui/DownloadObject.py:230 | a destination line written out with spaces splits back into its words |
| ProgressLine.DestinationTokens | youtube_dl_gui/DownloadObject.py:230-242 | a line whose tokens form a destination line yields exactly Downloading and the rejoined path |
| ProgressLine.DestinationRest | youtube_dl_gui/DownloadObject.py:235-242 | the classification of a destination line's tokens is exactly Downloading and the rejoined path |
| ProgressLine.DownloadClassify | youtube_dl_gui/DownloadObject.py:235-262 | an intact `[download]` line classifies as the event of the tokens after its header |
| ProgressLine.DestinationLine | youtube_dl_gui/DownloadObject.py:226-262 | `[download] Destination: <path>` yields exactly Downloading and the path rejoined by single spaces |
| ProgressLine.ProgressEvent | youtube_dl_gui/DownloadObject.py:245-253 | the seven tokens of a progress line give exactly Downloading, percent, size, speed and eta |
| ProgressLine.ProgressLineFields | youtube_dl_gui/DownloadObject.py:226-262 | `[download] <p> of <size> at <speed> ETA <eta>` yields exactly those four fields and Downloading |
| ProgressLine.CompletedEvent | youtube_dl_gui/DownloadObject.py:245-248 | the tokens of `100% of <size>` give exactly Downloading with empty speed and eta |
| ProgressLine.CompletedLine | youtube_dl_gui/DownloadObject.py:226-262 | `[download] 100% of <size>` yields empty speed and eta and no percent |
| ProgressLine.BareDownloadHeader | youtube_dl_gui/DownloadObject.py:235-241 | a bare `[download]` line raises IndexError |
| DownloadObject.EmptyData | youtube_dl_gui/DownloadObject.py:70-79 | the initial record holds all eight keys, each None |
| DownloadObject.StoredValue | youtube_dl_gui/DownloadObject.py:130-143 | a file name is stored without its directory; for the status, None is stored exactly in place of Already Downloaded; any other value is stored as given |
| DownloadObject.Merge | youtube_dl_gui/DownloadObject.py:123-148 | event keys overwrite and all other keys are kept; the full path is appended once; ALREADY exactly for an Already Downloaded status |
| DownloadObject.MergeData | youtube_dl_gui/DownloadObject.py:129-143 | the merged record has the union of keys, event values stored and the rest kept |
| DownloadObject.MergeEmpty | youtube_dl_gui/DownloadObject.py:127-148 | an empty event changes nothing |
| DownloadObject.MergeTwice | youtube_dl_gui/DownloadObject.py:123-148 | merging an event twice leaves the record and the code as merging it once, but lists its file twice |
| DownloadObject.MergeDataStep | youtube_dl_gui/DownloadObject.py:129-143 | storing one more key is one more map update |
| DownloadObject.MergeStep | youtube_dl_gui/DownloadObject.py:129-146 | merging key by key, in any order, equals merging the event at once |
| DownloadObject.ReadStream | youtube_dl_gui/DownloadObject.py:182-188 | one line, stripped at its end, is consumed; an exhausted pipe gives the empty line |
| DownloadObject.ReadLines | youtube_dl_gui/DownloadObject.py:171-180 | stderr is read only when stdout gave nothing, so no pass yields lines from both pipes |
| DownloadObject.StopSpec | youtube_dl_gui/DownloadObject.py:111-115 | STOPPED exactly when a process is alive; nothing else changes |
| DownloadObject.IterateSpec | youtube_dl_gui/DownloadObject.py:97-107 | raises exactly on a truncated line; a stderr line gives ERROR and leaves the record alone; an announcing line gives ALREADY; the record keeps its keys and the file list grows |
| DownloadObject.AfterEvent | youtube_dl_gui/DownloadObject.py:100-107 | the event is merged; the merged record is appended to the hook trace exactly when a hook is given and the event held a key; a stderr line sets ERROR and is appended to the log trace exactly when a logger is given; pipes and liveness kept |
| DownloadObject.IterateSucceeds | youtube_dl_gui/DownloadObject.py:98-107 | a pass whose stdout line classifies is the read followed by the event handling |
| DownloadObject.LoopPreserves | youtube_dl_gui/DownloadObject.py:97-107 | over any schedule the process stays alive, the record keeps its eight keys and the file list only grows |
| DownloadObject.LoopStopsAtRaise | youtube_dl_gui/DownloadObject.py:97-107 | once a pass has raised, the rest of the schedule does not run |
| DownloadObject.FieldKnown | youtube_dl_gui/DownloadObject.py:70-79 | every key an event can carry is a key of the record |
| DownloadObject.QuietIteration | youtube_dl_gui/DownloadObject.py:97-107 | a pass over quiet pipes keeps the code and leaves quiet pipes |
| DownloadObject.QuietRead | youtube_dl_gui/DownloadObject.py:171-180 | a read from quiet pipes gives no stderr text and no announcing line, and leaves quiet pipes |
| DownloadObject.QuietStdout | youtube_dl_gui/DownloadObject.py:175 | the stdout line of quiet pipes does not announce, and the rest stays quiet |
| DownloadObject.QuietStderr | youtube_dl_gui/DownloadObject.py:177-178 | the stderr line of quiet pipes is blank, and the rest stays quiet |
| DownloadObject.QuietLoop | youtube_dl_gui/DownloadObject.py:97-107 | with no stop, a run over quiet pipes keeps its starting code |
| DownloadObject.QuietRunIsOk | youtube_dl_gui/DownloadObject.py:92-109 | a run with no stop, no stderr text and no "already downloaded" line returns OK, unless it raises |
| DownloadObject.ImmediateExit | youtube_dl_gui/DownloadObject.py:92-109 | a process that exits at once gives OK and keeps the record, the files and the traces |
| DownloadObject.LoopLast | youtube_dl_gui/DownloadObject.py:97-107 | the loop over a schedule with one more step is that step after the loop over the schedule |
| DownloadObject.LoopNext | youtube_dl_gui/DownloadObject.py:97-107 | the same, for a step inside a schedule |
| DownloadObject.StopLastWins | youtube_dl_gui/DownloadObject.py:111-115 | a stop after the last pass makes download return STOPPED |
| DownloadObject.ErrorLastWins | youtube_dl_gui/DownloadObject.py:105-109 | a stderr line in the last pass makes download return ERROR |
| DownloadObject.AlreadyLastWins | youtube_dl_gui/DownloadObject.py:136-139 | an announcing line in the last pass makes download return ALREADY |
| DownloadObject.LoopAppend | youtube_dl_gui/DownloadObject.py:97-107 | running `a + b` is running `a`, then `b` from where `a` left off, unless `a` raised |
| DownloadObject.LastAssignmentStays | youtube_dl_gui/DownloadObject.py:97-109 | after a prefix that leaves quiet pipes, a stop-free rest returns the code the prefix left (or raises) |
| DownloadObject.ErrorThenQuiet | youtube_dl_gui/DownloadObject.py:105-109 | a stderr line followed only by quiet, stop-free passes makes download return ERROR (or raise) |
| DownloadObject.StopThenError | youtube_dl_gui/DownloadObject.py:105-115 | a stderr line read after stop() turns STOPPED into ERROR |
| DownloadObject.DownloadObject.constructor | youtube_dl_gui/DownloadObject.py:61-79 | code 0, no files, no process, all eight keys None |
| DownloadObject.DownloadObject.FilesList | youtube_dl_gui/DownloadObject.py:81-86 | the property is the file list of the state |
| DownloadObject.DownloadObject.UpdateData | youtube_dl_gui/DownloadObject.py:123-148 | the loop over the keys computes `Merge`; the result is true exactly for a non-empty event |
| DownloadObject.DownloadObject.UpdateKey | youtube_dl_gui/DownloadObject.py:130-143 | one pass of the key loop is `MergeOne` |
| DownloadObject.DownloadObject.AddOnFilesList | youtube_dl_gui/DownloadObject.py:150-152 | the path is appended to the file list |
| DownloadObject.DownloadObject.HookData | youtube_dl_gui/DownloadObject.py:159-162 | the record goes to the hook exactly when one was given |
| DownloadObject.DownloadObject.Log | youtube_dl_gui/DownloadObject.py:154-157 | the line goes to the logger exactly when one was given |
| DownloadObject.DownloadObject.Read | youtube_dl_gui/DownloadObject.py:171-188 | the method computes `ReadLines` and leaves the pipes it returns |
| DownloadObject.DownloadObject.GetCmd | youtube_dl_gui/DownloadObject.py:190-197 | the script, then the options, then the url; `python` first except on Windows |
| DownloadObject.DownloadObject.CreateProcess | youtube_dl_gui/DownloadObject.py:199-223 | a live process whose pipes carry the given lines |
| DownloadObject.DownloadObject.Stop | youtube_dl_gui/DownloadObject.py:111-115 | the method computes `StopSpec` |
| DownloadObject.DownloadObject.IterateOnce | youtube_dl_gui/DownloadObject.py:98-107 | one pass computes `IterateSpec` and keeps the eight keys |
| DownloadObject.DownloadObject.RunStep | youtube_dl_gui/DownloadObject.py:97-115 | a stop or a pass, as the schedule says |
| DownloadObject.DownloadObject.RunSchedule | youtube_dl_gui/DownloadObject.py:97-107 | the while loop computes `Loop` over the schedule |
| DownloadObject.DownloadObject.Download | youtube_dl_gui/DownloadObject.py:88-109 | download computes `DownloadSpec`: reset to OK, start, loop, return the code or the IndexError |
| DownloadObject.DownloadObject.ClearDash | youtube_dl_gui/DownloadObject.py:117-121 | the files left are exactly the existing ones that are not in the file list |
| OptionsParsing.Recognize | youtube_dl_gui/OptionsParser.py:80-190 | a recognised item is the spelling of the option it names |
| OptionsParsing.RecognizeSpelling | youtube_dl_gui/OptionsParser.py:80-190 | every option's spelling is recognised as that option |
| OptionsParsing.Flatten | youtube_dl_gui/OptionsParser.py:80-190 | writing options out gives at least one item per option |
| OptionsParsing.Decode | youtube_dl_gui/OptionsParser.py:80-190 | reading an argv gives at most one option per item |
| OptionsParsing.FlattenAppend | youtube_dl_gui/OptionsParser.py:66-78 | writing out two runs of options is writing out each, one after the other |
| OptionsParsing.FlattenDecode | youtube_dl_gui/OptionsParser.py:80-190 | writing the decoded items out gives the argv back |
| OptionsParsing.DecodeHead | youtube_dl_gui/OptionsParser.py:80-190 | one proper option is read back whatever follows it |
| OptionsParsing.DecodeFlatten | youtube_dl_gui/OptionsParser.py:66-78 | well-formed options are read back exactly, whatever follows them |
| OptionsParsing.When | youtube_dl_gui/OptionsParser.py:135-160 | a guarded option is emitted exactly when its guard holds, and nothing else is emitted |
| OptionsParsing.OutputTarget | youtube_dl_gui/OptionsParser.py:163-171 | a target exactly for the three known formats: the fixed save path followed by `%(id)s.%(ext)s`, `%(title)s.%(ext)s` or the custom template |
| OptionsParsing.OutputArgs | youtube_dl_gui/OptionsParser.py:162-174 | `-o` comes first, with its target exactly for the known formats; `--restrict-filenames` exactly when asked |
| OptionsParsing.AuthArgs | youtube_dl_gui/OptionsParser.py:95-104 | each credential is emitted with its option exactly when it is not empty |
| OptionsParsing.ConnectionArgs | youtube_dl_gui/OptionsParser.py:106-118 | retries exactly unless 10, in decimal; proxy, user agent and referer exactly unless empty |
| OptionsParsing.VideoArgs | youtube_dl_gui/OptionsParser.py:120-132 | nothing for `default`; a KeyError exactly for a missing format or DASH audio entry, after `-f`; otherwise the code, with `+audio` exactly for two DASH formats |
| OptionsParsing.PlaylistArgs | youtube_dl_gui/OptionsParser.py:84-93 | start exactly unless 1, end and maximum exactly unless 0, in decimal |
| OptionsParsing.FilesystemArgs | youtube_dl_gui/OptionsParser.py:134-148 | each switch exactly when set; each size limit exactly unless "0" |
| OptionsParsing.LanguageArgs | youtube_dl_gui/OptionsParser.py:155-158 | `--write-sub --sub-lang` and the code, or a KeyError after both switches exactly for an unknown language |
| OptionsParsing.SubtitlesArgs | youtube_dl_gui/OptionsParser.py:150-160 | `--all-subs`, `--write-auto-sub`, `--write-sub` and `--embed-subs` each appear exactly when their switch is set; a KeyError exactly for `write_subs` with an unknown language, after what the phase appended |
| OptionsParsing.AudioArgs | youtube_dl_gui/OptionsParser.py:176-185 | nothing unless converting; `-x --audio-format` first, then the quality exactly unless "mid", then `-k` exactly when asked, and nothing else; a KeyError exactly for an unknown quality |
| OptionsParsing.Extras | youtube_dl_gui/OptionsParser.py:187-190 | the words of `cmd_args` are passed through one by one, unchanged |
| OptionsParsing.Advance | youtube_dl_gui/OptionsParser.py:66-78 | a phase appends the same items whatever `options_list` already holds |
| OptionsParsing.ParseFailsIff | youtube_dl_gui/OptionsParser.py:66-78 | parse raises exactly when a lookup misses, and names one of the looked-up keys |
| OptionsParsing.ParseHead | youtube_dl_gui/OptionsParser.py:66-82 | even when a lookup misses, the argv starts with `--newline` and then `-o` |
| OptionsParsing.FlattenHead | youtube_dl_gui/OptionsParser.py:164 | the first item written out is the spelling of the first option |
| OptionsParsing.ThenGrows | youtube_dl_gui/OptionsParser.py:66-78 | a phase only appends, and no phase runs once one has raised |
| OptionsParsing.ChainKeeps | youtube_dl_gui/OptionsParser.py:69-77 | the phases after `_set_output_options` keep the first two items |
| OptionsParsing.KeepsTwo | youtube_dl_gui/OptionsParser.py:69-77 | one more phase keeps the first two items |
| OptionsParsing.ParseArgv | youtube_dl_gui/OptionsParser.py:66-78 | a parse with no missing lookup is the structured options followed by the words of `cmd_args` |
| OptionsParsing.ThenStep | youtube_dl_gui/OptionsParser.py:66-78 | one more successful phase appends exactly what it emits |
| OptionsParsing.WhenWellFormed | youtube_dl_gui/OptionsParser.py:135-160 | a guarded proper option is well formed |
| OptionsParsing.WellFormedAppend | youtube_dl_gui/OptionsParser.py:66-78 | well-formed runs stay well formed when joined |
| OptionsParsing.AuthOnly | youtube_dl_gui/OptionsParser.py:95-104 | the auth phase emits its three credentials only, each with its value |
| OptionsParsing.ConnectionOnly | youtube_dl_gui/OptionsParser.py:106-118 | the connection phase emits its four options only, each with its value |
| OptionsParsing.PlaylistOnly | youtube_dl_gui/OptionsParser.py:84-93 | the playlist phase emits its three options only, each with its value |
| OptionsParsing.FilesystemOnly | youtube_dl_gui/OptionsParser.py:134-148 | the filesystem phase emits its four switches and two limits only |
| OptionsParsing.FilesystemWellFormed | youtube_dl_gui/OptionsParser.py:134-148 | the filesystem phase emits only proper options |
| OptionsParsing.SubtitlesOnly | youtube_dl_gui/OptionsParser.py:150-160 | the subtitles phase emits its four switches and the language code only |
| OptionsParsing.SubLangFollowsWriteSub | youtube_dl_gui/OptionsParser.py:155-158 | `--write-sub` is always followed by `--sub-lang` and the looked-up code |
| OptionsParsing.SubtitlesParts | youtube_dl_gui/OptionsParser.py:150-160 | the switches around `--write-sub` are proper and are not `--write-sub` |
| OptionsParsing.WhenOnly | youtube_dl_gui/OptionsParser.py:150-160 | a guarded append holds no option but its own |
| OptionsParsing.Follows | youtube_dl_gui/OptionsParser.py:155-158 | in `head + [x, y] + tail` with no other `x`, every `x` is followed by `y` |
| OptionsParsing.OutputWellFormed | youtube_dl_gui/OptionsParser.py:162-174 | for the known formats, `-o` carries its target |
| OptionsParsing.MediaWellFormed | youtube_dl_gui/OptionsParser.py:120-132 | the video and audio phases emit only proper options when they succeed |
| OptionsParsing.PhasesWellFormed | youtube_dl_gui/OptionsParser.py:66-77 | every phase emits only proper options, for the known output formats |
| OptionsParsing.ParseDecodes | youtube_dl_gui/OptionsParser.py:66-78 | reading the argv back by arity gives exactly the structured options, then whatever `cmd_args` contributes |
| OptionsParsing.MinimalArgv | youtube_dl_gui/OptionsParser.py:66-190 | at the defaults the argv is exactly `--newline -o <target>` |
| OptionsParsing.DefaultPhases | youtube_dl_gui/OptionsParser.py:84-190 | at the defaults every phase after `-o` emits nothing |
| OptionsParsing.OptionsParser.constructor | youtube_dl_gui/OptionsParser.py:62-64 | an empty `options_list` over the given options and the source tables |
| OptionsParsing.OptionsParser.Emit | youtube_dl_gui/OptionsParser.py:80-190 | one option is appended as its argv items |
| OptionsParsing.OptionsParser.EmitWhen | youtube_dl_gui/OptionsParser.py:135-160 | a guarded append extends what the phase has appended so far |
| OptionsParsing.OptionsParser.SetProgressOptions | youtube_dl_gui/OptionsParser.py:80-82 | `--newline` is appended |
| OptionsParsing.OptionsParser.SetOutputOptions | youtube_dl_gui/OptionsParser.py:162-174 | the method appends exactly `OutputArgs` written out |
| OptionsParsing.OptionsParser.SetAuthOptions | youtube_dl_gui/OptionsParser.py:95-104 | the method appends exactly `AuthArgs` written out |
| OptionsParsing.OptionsParser.SetConnectionOptions | youtube_dl_gui/OptionsParser.py:106-118 | the method appends exactly `ConnectionArgs` written out |
| OptionsParsing.OptionsParser.SetVideoOptions | youtube_dl_gui/OptionsParser.py:120-132 | the method appends what `VideoArgs` emits, or `-f` and the missing key |
| OptionsParsing.OptionsParser.SetPlaylistOptions | youtube_dl_gui/OptionsParser.py:84-93 | the method appends exactly `PlaylistArgs` written out |
| OptionsParsing.OptionsParser.SetFilesystemOptions | youtube_dl_gui/OptionsParser.py:134-148 | the method appends exactly `FilesystemArgs` written out |
| OptionsParsing.OptionsParser.SetSubtitlesOptions | youtube_dl_gui/OptionsParser.py:150-160 | the method appends what `SubtitlesArgs` emits, or what came before the KeyError and the missing key |
| OptionsParsing.OptionsParser.EmitLanguage | youtube_dl_gui/OptionsParser.py:155-158 | the method appends what `LanguageArgs` emits, or both switches and the missing key |
| OptionsParsing.OptionsParser.SetAudioOptions | youtube_dl_gui/OptionsParser.py:176-185 | the method appends what `AudioArgs` emits, or what came before the KeyError and the missing key |
| OptionsParsing.OptionsParser.SetOtherOptions | youtube_dl_gui/OptionsParser.py:187-190 | the words of `cmd_args` are appended in order |
| OptionsParsing.OptionsParser.Parse | youtube_dl_gui/OptionsParser.py:66-78 | parse appends `ParseSpec` to `options_list`, returns the whole list and reports the KeyError's key |
| OptionsParsing.ParseTwice | youtube_dl_gui/OptionsParser.py:62-78 | `options_list` is never cleared, so a second parse returns the first result twice over |

## Left out

- Process I/O is not modelled: `Popen`, the command encoding on Windows, `STARTUPINFO`, `poll()`, `kill()` and blocking `readline()`. The child is the lines its pipes will carry, and its lifetime is the schedule.
- Concurrency is reduced to a schedule: `stop()` is modelled only between two loop passes, not in the middle of one.
- `kill()` is not modelled: after a stop the model's process stays alive until the schedule ends, which is how the source's loop sees it until `poll()` reports the exit.
- The `data_hook` and `logger` calls are recorded as traces (`hooked`, `logged`). That the hook receives the same dictionary object each time (aliasing of `_data`) is not captured; each trace entry is the record's value at the call.
- `os.path.basename` is modelled in its POSIX form; the Windows form (`ntpath`, with '\\' and drive letters) is not modelled.
- `str.split()` is modelled with Python 2's ASCII whitespace; Unicode whitespace is not modelled.
- `OptionsManager.options` is assumed to hold every key the parser reads, so a KeyError on the options record itself is not modelled.
- `fix_path` and `is_dash` from `youtube_dl_gui/utils.py` are function parameters; `utils.py` is not part of this model.
- The four lookup tables are a parameter (`Tables`), so every lemma holds for any table contents; `SourceTables` is the source's own tables.
- ClearDash: the existence check and removal of files become a set of existing paths in and the set left out; removal errors from the file system are not modelled.
- A KeyError raised by `parse` is returned as the missing key next to `options_list`, rather than thrown.
- DownloadObject.DownloadObject.Download: `_get_cmd` is computed but not passed to a real process, so the model does not check the command the child is started with; `GetCmd` states the command on its own.
- ParseTwice: in the source `parse` returns `options_list` itself, so the list the first call returned is the same object and also holds the doubled items after the second call; the model returns each result as a value, so `first` is the first run only.
- Decode: reads only each option's exact spelling by its arity; youtube-dl's own parser also takes `--opt=value`, abbreviated long options and bundled short switches, and raises an error for a valued option at the end of argv, which `Decode` keeps as a word.
