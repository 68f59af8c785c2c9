/**
 * The class `DownloadObject` of youtube_dl_gui/DownloadObject.py: it runs
 * youtube-dl, feeds every stdout line through `extract_data`, merges the
 * events into its eight-field progress record, keeps the list of files it
 * saw and tracks a four-valued return code.
 *
 * The child process is abstract. Its two pipes are the lines it will write
 * (`Pipes`), and its lifetime is a schedule: one `Iterate` for every loop
 * iteration in which `poll()` reports it alive, and a `StopRequest` where
 * another thread calls `stop()` between two iterations. The schedule's end
 * is the moment `poll()` reports the exit. Reading an exhausted pipe gives
 * the empty line, as `readline()` does at end of file.
 *
 * Every operation is specified twice: by a function on `Supervised`, the
 * object's state as a value, and by the method of the class that does what
 * the source does step by step and promises to compute that function.
 */
module DownloadObject {
  import opened Wrappers
  import Text
  import opened ProgressLine

  // The four results a download can settle on.
  const OK := 0
  const ERROR := 1
  const STOPPED := 2
  const ALREADY := 3

  /** `self._data`: every key of the record, `None` until a line supplies it. */
  type ProgressData = map<Field, Option<string>>

  const AllFields: set<Field> := {PlaylistIndex, PlaylistSize, Filesize, Filename, Percent, Status, Speed, Eta}

  /** The record `__init__` creates: all eight keys, all `None`. */
  function EmptyData(): (d: ProgressData)
    ensures d.Keys == AllFields
    ensures forall k :: k in d ==> d[k] == None
  {
    map k | k in AllFields :: None
  }

  /** The remaining lines of the child's stdout and stderr. */
  datatype Pipes = Pipes(stdout: seq<string>, stderr: seq<string>)

  /** What happens between two liveness checks of the download loop. */
  datatype Step = Iterate | StopRequest

  /** Which of the optional `data_hook` and `logger` collaborators were given. */
  datatype Callbacks = Callbacks(hook: bool, logger: bool)

  /**
   * The state of a `DownloadObject` as a value: return code, `files_list`,
   * `_data`, the pipes, whether the process is alive, and the traces of the
   * snapshots passed to `data_hook` and the lines passed to `logger.log`.
   */
  datatype Supervised = Supervised(
    code: int,
    files: seq<string>,
    data: ProgressData,
    pipes: Pipes,
    alive: bool,
    hooked: seq<ProgressData>,
    logged: seq<string>)

  /** What `download` gives its caller: a return code, or the IndexError of `extract_data`. */
  datatype Outcome = Returned(code: int) | RaisedIndexError

  /** The state after some iterations, and whether the last one raised. */
  datatype LoopState = LoopState(state: Supervised, raised: bool)

  /** The state when `download` comes back, and what it gives back. */
  datatype Finished = Finished(state: Supervised, outcome: Outcome)

  /** The value `_update_data` stores for one key of an event. */
  function StoredValue(k: Field, v: string): (r: Option<string>)
    // a filename is stored without its directory
    ensures k == Filename ==> r == Some(Text.Basename(v))
    // "Already Downloaded" is a signal, not a status: None is stored
    ensures k == Status ==> (r == None <==> v == AlreadyDownloaded)
    ensures k != Filename && r.Some? ==> r.value == v
  {
    if k == Filename then Some(Text.Basename(v))
    else if k == Status && v == AlreadyDownloaded then None
    else Some(v)
  }

  /** `_update_data`: the event merged into the state; the result says whether it held any key. */
  function Merge(s: Supervised, ev: Event): (r: Supervised)
    // keys of the event overwrite, every other key keeps its value
    ensures r.data.Keys == s.data.Keys + ev.Keys
    ensures forall k :: k in s.data && k !in ev ==> r.data[k] == s.data[k]
    ensures forall k :: k in ev ==> r.data[k] == StoredValue(k, ev[k])
    // the full path of a filename is appended, once
    ensures r.files == if Filename in ev then s.files + [ev[Filename]] else s.files
    // "Already Downloaded" sets ALREADY; anything else leaves the code alone
    ensures r.code == if Status in ev && ev[Status] == AlreadyDownloaded then ALREADY else s.code
    ensures r.pipes == s.pipes && r.alive == s.alive && r.hooked == s.hooked && r.logged == s.logged
  {
    s.(data := MergeData(s.data, ev),
       files := if Filename in ev then s.files + [ev[Filename]] else s.files,
       code := if Status in ev && ev[Status] == AlreadyDownloaded then ALREADY else s.code)
  }

  function MergeData(d: ProgressData, ev: Event): (r: ProgressData)
    ensures r.Keys == d.Keys + ev.Keys
    ensures forall k :: k in d && k !in ev ==> r[k] == d[k]
    ensures forall k :: k in ev ==> r[k] == StoredValue(k, ev[k])
  {
    map k | k in d.Keys + ev.Keys :: if k in ev then StoredValue(k, ev[k]) else d[k]
  }

  /** An empty event changes nothing. */
  lemma MergeEmpty(s: Supervised)
    ensures Merge(s, map[]) == s
  {
    assert Merge(s, map[]).data == s.data;
  }

  /** Merging the same event twice leaves the record as merging it once, but lists its file twice. */
  lemma MergeTwice(s: Supervised, ev: Event)
    ensures Merge(Merge(s, ev), ev).data == Merge(s, ev).data
    ensures Merge(Merge(s, ev), ev).code == Merge(s, ev).code
    ensures Filename in ev ==> Merge(Merge(s, ev), ev).files == s.files + [ev[Filename]] + [ev[Filename]]
  {
    var once := MergeData(s.data, ev);
    var twice := MergeData(once, ev);
    assert twice.Keys == once.Keys;
    forall k | k in twice
      ensures twice[k] == once[k]
    {
      if k in ev {
        assert twice[k] == StoredValue(k, ev[k]);
      }
    }
  }

  /** Two events with the same keys and values are the same event. */
  lemma SameEvent(a: Event, b: Event)
    requires a.Keys == b.Keys
    requires forall j :: j in a ==> a[j] == b[j]
    ensures a == b
  {
  }

  /** Merging one more key is one more store. */
  lemma MergeDataStep(d: ProgressData, ev: Event, k: Field, v: string)
    requires k !in ev
    ensures MergeData(d, ev[k := v]) == MergeData(d, ev)[k := StoredValue(k, v)]
  {
    var a := MergeData(d, ev[k := v]);
    var b := MergeData(d, ev)[k := StoredValue(k, v)];
    assert a.Keys == b.Keys;
    forall j | j in a
      ensures a[j] == b[j]
    {
      if j != k && j in ev {
        assert ev[k := v][j] == ev[j];
      }
    }
  }

  /** One key of an event merged into the state. */
  function MergeOne(s: Supervised, k: Field, v: string): Supervised {
    s.(data := s.data[k := StoredValue(k, v)],
       files := if k == Filename then s.files + [v] else s.files,
       code := if k == Status && v == AlreadyDownloaded then ALREADY else s.code)
  }

  /** Merging an event key by key, in any order, is merging it at once. */
  lemma MergeStep(s: Supervised, ev: Event, k: Field, v: string)
    requires k !in ev
    ensures Merge(s, ev[k := v]) == MergeOne(Merge(s, ev), k, v)
  {
    MergeDataStep(s.data, ev, k, v);
  }

  /** One line read from a pipe, and what is left of it. */
  datatype Line = Line(text: string, rest: seq<string>)

  /** `_read_stream`: `readline().rstrip()`, the empty line once the pipe is exhausted. */
  function ReadStream(stream: seq<string>): (r: Line)
    ensures stream == [] ==> r == Line("", [])
    ensures stream != [] ==> r.rest == stream[1..] && r.text <= stream[0]
    ensures r.text == "" || r.text[|r.text| - 1] !in Text.Whitespace
  {
    if stream == [] then Line("", []) else Line(Text.RStrip(stream[0]), stream[1..])
  }

  /** What one call of `_read` returns, and the pipes after it. */
  datatype ReadOut = ReadOut(stdout: string, stderr: string, rest: Pipes)

  /** `_read`: a stdout line; only when that is empty, a stderr line. */
  function ReadLines(p: Pipes): (r: ReadOut)
    // never a line from both pipes in one call
    ensures r.stderr != "" ==> r.stdout == ""
    ensures r.stdout == ReadStream(p.stdout).text
    ensures r.rest.stdout == ReadStream(p.stdout).rest
    // stderr is consumed only when stdout gave nothing
    ensures r.rest.stderr == if r.stdout == "" then ReadStream(p.stderr).rest else p.stderr
    ensures r.stderr == if r.stdout == "" then ReadStream(p.stderr).text else ""
  {
    var out := ReadStream(p.stdout);
    if out.text == "" then
      var err := ReadStream(p.stderr);
      ReadOut("", err.text, Pipes(out.rest, err.rest))
    else ReadOut(out.text, "", Pipes(out.rest, p.stderr))
  }

  /** `stop`: STOPPED when a process is alive, otherwise nothing. */
  function StopSpec(s: Supervised): (r: Supervised)
    ensures s.alive ==> r.code == STOPPED
    ensures r == s.(code := r.code)
    ensures !s.alive ==> r == s
  {
    if s.alive then s.(code := STOPPED) else s
  }

  /** `_hook_data`: the current record goes to `data_hook`, if there is one. */
  function HookSpec(s: Supervised, cb: Callbacks): Supervised {
    if cb.hook then s.(hooked := s.hooked + [s.data]) else s
  }

  /** `_log`: the line goes to `logger.log`, if there is a logger. */
  function LogSpec(s: Supervised, cb: Callbacks, line: string): Supervised {
    if cb.logger then s.(logged := s.logged + [line]) else s
  }

  /** One iteration of the loop of `download` (lines 98-107). */
  function IterateSpec(s: Supervised, cb: Callbacks): (r: LoopState)
    // a stderr line: no event, ERROR, nothing else touched but pipes and log
    ensures ReadLines(s.pipes).stderr != "" ==>
              && !r.raised && r.state.code == ERROR
              && r.state.data == s.data && r.state.files == s.files && r.state.hooked == s.hooked
    // IndexError exactly when the stdout line is truncated
    ensures r.raised <==> ExtractData(ReadLines(s.pipes).stdout).Failure?
    ensures r.state.pipes == ReadLines(s.pipes).rest && r.state.alive == s.alive
    // the code an iteration leaves: ERROR for a stderr line, ALREADY for an announcing line
    ensures !r.raised ==> r.state.code == (if ReadLines(s.pipes).stderr != "" then ERROR
                                           else if Announces(ReadLines(s.pipes).stdout) then ALREADY
                                           else s.code)
    ensures s.files <= r.state.files && r.state.data.Keys == s.data.Keys + (if r.raised then {} else ExtractData(ReadLines(s.pipes).stdout).value.Keys)
  {
    var rd := ReadLines(s.pipes);
    var s1 := s.(pipes := rd.rest);
    match ExtractData(rd.stdout)
    case Failure(_) => LoopState(s1, true)
    case Success(ev) => LoopState(AfterEvent(s1, ev, rd.stderr, cb), false)
  }

  /** Lines 100-107: the event merged, handed to the hook if it held a key, and a stderr line logged with ERROR. */
  function AfterEvent(s1: Supervised, ev: Event, err: string, cb: Callbacks): (r: Supervised)
    ensures r.pipes == s1.pipes && r.alive == s1.alive
    ensures r.data == Merge(s1, ev).data && r.files == Merge(s1, ev).files
    ensures r.code == if err != "" then ERROR else Merge(s1, ev).code
    // the merged record goes to the hook exactly when the event held a key and a hook was given
    ensures r.hooked == s1.hooked + (if cb.hook && ev != map[] then [Merge(s1, ev).data] else [])
    // a stderr line goes to the logger, if there is one
    ensures r.logged == s1.logged + (if err != "" && cb.logger then [err] else [])
  {
    var s2 := Merge(s1, ev);
    var s3 := if ev != map[] then HookSpec(s2, cb) else s2;
    if err != "" then LogSpec(s3.(code := ERROR), cb, err) else s3
  }

  /** An iteration whose stdout line gives an event. */
  lemma IterateSucceeds(s: Supervised, cb: Callbacks, ev: Event)
    requires ExtractData(ReadLines(s.pipes).stdout) == Success(ev)
    ensures var rd := ReadLines(s.pipes);
            IterateSpec(s, cb) == LoopState(AfterEvent(s.(pipes := rd.rest), ev, rd.stderr, cb), false)
  {
  }

  function StepSpec(s: Supervised, step: Step, cb: Callbacks): LoopState {
    match step
    case StopRequest => LoopState(StopSpec(s), false)
    case Iterate => IterateSpec(s, cb)
  }

  /** The loop of `download` over a schedule; an IndexError ends it. */
  function Loop(s: Supervised, schedule: seq<Step>, cb: Callbacks): LoopState
    decreases |schedule|
  {
    if schedule == [] then LoopState(s, false)
    else
      var r := Loop(s, schedule[..|schedule| - 1], cb);
      if r.raised then r else StepSpec(r.state, schedule[|schedule| - 1], cb)
  }

  /** Lines 92-95: the code is reset to OK and a process is started; `_data` and `files_list` are kept. */
  function Started(s: Supervised, stdout: seq<string>, stderr: seq<string>): Supervised {
    s.(code := OK, pipes := Pipes(stdout, stderr), alive := true)
  }

  /** `download`: start, loop until the process exits, return the code. */
  function DownloadSpec(s: Supervised, stdout: seq<string>, stderr: seq<string>, schedule: seq<Step>, cb: Callbacks): Finished {
    var r := Loop(Started(s, stdout, stderr), schedule, cb);
    if r.raised then Finished(r.state, RaisedIndexError)
    else Finished(r.state.(alive := false), Returned(r.state.code))
  }

  /**
   * What the loop never changes and what it only extends: the process stays
   * alive, the record keeps its keys, and `files_list` only grows.
   */
  lemma {:induction false} LoopPreserves(s: Supervised, schedule: seq<Step>, cb: Callbacks)
    requires s.data.Keys == AllFields
    ensures var r := Loop(s, schedule, cb).state;
            r.alive == s.alive && r.data.Keys == AllFields && s.files <= r.files
    decreases |schedule|
  {
    if schedule != [] {
      var prefix := schedule[..|schedule| - 1];
      LoopPreserves(s, prefix, cb);
      var r := Loop(s, prefix, cb);
      if !r.raised {
        var last := schedule[|schedule| - 1];
        if last == Iterate {
          forall k: Field ensures k in AllFields {
            FieldKnown(k);
          }
        }
      }
    }
  }

  /** Once an iteration has raised, the rest of the schedule is never run. */
  lemma {:induction false} LoopStopsAtRaise(s: Supervised, schedule: seq<Step>, k: nat, cb: Callbacks)
    requires k <= |schedule|
    requires Loop(s, schedule[..k], cb).raised
    ensures Loop(s, schedule, cb) == Loop(s, schedule[..k], cb)
    decreases |schedule| - k
  {
    if k < |schedule| {
      var shorter := schedule[..|schedule| - 1];
      assert shorter[..k] == schedule[..k];
      LoopStopsAtRaise(s, shorter, k, cb);
    } else {
      assert schedule[..k] == schedule;
    }
  }

  /** Every key an event can carry is a key of the record. */
  lemma FieldKnown(k: Field)
    ensures k in AllFields
  {
    match k
    case PlaylistIndex =>
    case PlaylistSize =>
    case Filesize =>
    case Filename =>
    case Percent =>
    case Status =>
    case Speed =>
    case Eta =>
  }

  /** Whether a stdout line, once classified, announces an already downloaded file. */
  predicate Announces(line: string) {
    var r := ExtractData(line);
    r.Success? && Status in r.value && r.value[Status] == AlreadyDownloaded
  }

  /** Pipes that never lead to ERROR or ALREADY: no announcing stdout line, only blank stderr lines. */
  ghost predicate Quiet(p: Pipes) {
    && (forall i :: 0 <= i < |p.stdout| ==> !Announces(Text.RStrip(p.stdout[i])))
    && (forall i :: 0 <= i < |p.stderr| ==> Text.RStrip(p.stderr[i]) == "")
  }

  /** An iteration over quiet pipes keeps the code and leaves quiet pipes. */
  lemma QuietIteration(s: Supervised, cb: Callbacks)
    requires Quiet(s.pipes)
    ensures var r := IterateSpec(s, cb);
            Quiet(r.state.pipes) && (r.raised || r.state.code == s.code)
  {
    QuietRead(s.pipes);
  }

  /** A read from quiet pipes: no stderr text, no announcing line, and quiet pipes left. */
  lemma QuietRead(p: Pipes)
    requires Quiet(p)
    ensures var rd := ReadLines(p);
            rd.stderr == "" && !Announces(rd.stdout) && Quiet(rd.rest)
  {
    QuietStdout(p);
    var p1 := Pipes(ReadStream(p.stdout).rest, p.stderr);
    QuietStderr(p1);
  }

  /** The stdout line of quiet pipes does not announce, and the pipes left are quiet. */
  lemma QuietStdout(p: Pipes)
    requires Quiet(p)
    ensures !Announces(ReadStream(p.stdout).text)
    ensures Quiet(Pipes(ReadStream(p.stdout).rest, p.stderr))
  {
    if p.stdout == [] {
      assert ExtractData("") == Success(map[]);
    } else {
      assert !Announces(Text.RStrip(p.stdout[0]));
      var r := p.stdout[1..];
      assert forall i :: 0 <= i < |r| ==> r[i] == p.stdout[i + 1];
    }
  }

  /** The stderr line of quiet pipes is blank, and the pipes left are quiet. */
  lemma QuietStderr(p: Pipes)
    requires Quiet(p)
    ensures ReadStream(p.stderr).text == ""
    ensures Quiet(Pipes(p.stdout, ReadStream(p.stderr).rest))
  {
    if p.stderr != [] {
      assert Text.RStrip(p.stderr[0]) == "";
      var r := p.stderr[1..];
      assert forall i :: 0 <= i < |r| ==> r[i] == p.stderr[i + 1];
    }
  }

  /** Without a stop, a run over quiet pipes never leaves the code it started with. */
  lemma {:induction false} QuietLoop(s: Supervised, schedule: seq<Step>, cb: Callbacks)
    requires Quiet(s.pipes)
    requires StopRequest !in schedule
    ensures var r := Loop(s, schedule, cb);
            r.raised || (Quiet(r.state.pipes) && r.state.code == s.code)
    decreases |schedule|
  {
    if schedule != [] {
      var prefix := schedule[..|schedule| - 1];
      assert forall i :: 0 <= i < |prefix| ==> prefix[i] == schedule[i];
      QuietLoop(s, prefix, cb);
      var r := Loop(s, prefix, cb);
      if !r.raised {
        assert schedule[|schedule| - 1] == Iterate;
        QuietIteration(r.state, cb);
      }
    }
  }

  /** A download nobody stops, with no stderr output and no "has already been downloaded", returns OK (or raises). */
  lemma QuietRunIsOk(s: Supervised, stdout: seq<string>, stderr: seq<string>, schedule: seq<Step>, cb: Callbacks)
    requires Quiet(Pipes(stdout, stderr))
    requires StopRequest !in schedule
    ensures DownloadSpec(s, stdout, stderr, schedule, cb).outcome in {Returned(OK), RaisedIndexError}
  {
    QuietLoop(Started(s, stdout, stderr), schedule, cb);
  }

  /** A process that exits at once: the code is reset to OK, the record and the file list are kept. */
  lemma ImmediateExit(s: Supervised, stdout: seq<string>, stderr: seq<string>, cb: Callbacks)
    ensures var f := DownloadSpec(s, stdout, stderr, [], cb);
            && f.outcome == Returned(OK)
            && f.state.data == s.data && f.state.files == s.files
            && f.state.hooked == s.hooked && f.state.logged == s.logged && !f.state.alive
  {
  }

  /** The loop up to the last step, the last step, and the whole run. */
  lemma LoopLast(s: Supervised, prefix: seq<Step>, last: Step, cb: Callbacks)
    ensures var r := Loop(s, prefix, cb);
            Loop(s, prefix + [last], cb) == if r.raised then r else StepSpec(r.state, last, cb)
  {
    assert (prefix + [last])[..|prefix|] == prefix;
  }

  /** The same, for the step at position `i` of a schedule. */
  lemma LoopNext(s: Supervised, schedule: seq<Step>, i: nat, cb: Callbacks)
    requires i < |schedule|
    ensures var r := Loop(s, schedule[..i], cb);
            Loop(s, schedule[..i + 1], cb) == if r.raised then r else StepSpec(r.state, schedule[i], cb)
  {
    assert schedule[..i + 1][..i] == schedule[..i];
  }

  /** A stop requested after the last iteration wins: download returns STOPPED. */
  lemma StopLastWins(s: Supervised, stdout: seq<string>, stderr: seq<string>, prefix: seq<Step>, cb: Callbacks)
    requires s.data.Keys == AllFields
    requires !Loop(Started(s, stdout, stderr), prefix, cb).raised
    ensures DownloadSpec(s, stdout, stderr, prefix + [StopRequest], cb).outcome == Returned(STOPPED)
  {
    LoopPreserves(Started(s, stdout, stderr), prefix, cb);
    LoopLast(Started(s, stdout, stderr), prefix, StopRequest, cb);
  }

  /** A stderr line in the last iteration makes download return ERROR, whatever came before. */
  lemma ErrorLastWins(s: Supervised, stdout: seq<string>, stderr: seq<string>, prefix: seq<Step>, cb: Callbacks)
    requires !Loop(Started(s, stdout, stderr), prefix, cb).raised
    requires ReadLines(Loop(Started(s, stdout, stderr), prefix, cb).state.pipes).stderr != ""
    ensures DownloadSpec(s, stdout, stderr, prefix + [Iterate], cb).outcome == Returned(ERROR)
  {
    LoopLast(Started(s, stdout, stderr), prefix, Iterate, cb);
  }

  /** A last stdout line announcing an already downloaded file makes download return ALREADY. */
  lemma AlreadyLastWins(s: Supervised, stdout: seq<string>, stderr: seq<string>, prefix: seq<Step>, cb: Callbacks)
    requires !Loop(Started(s, stdout, stderr), prefix, cb).raised
    requires Announces(ReadLines(Loop(Started(s, stdout, stderr), prefix, cb).state.pipes).stdout)
    ensures DownloadSpec(s, stdout, stderr, prefix + [Iterate], cb).outcome == Returned(ALREADY)
  {
    LoopLast(Started(s, stdout, stderr), prefix, Iterate, cb);
    var rd := ReadLines(Loop(Started(s, stdout, stderr), prefix, cb).state.pipes);
    assert rd.stdout != "" by {
      assert ExtractData("") == Success(map[]);
    }
  }

  /** Running a schedule `a + b` is running `a`, then `b` from where `a` left off, unless `a` raised. */
  lemma {:induction false} LoopAppend(s: Supervised, a: seq<Step>, b: seq<Step>, cb: Callbacks)
    ensures var r := Loop(s, a, cb);
            Loop(s, a + b, cb) == if r.raised then r else Loop(r.state, b, cb)
    decreases |b|
  {
    if b == [] {
      assert a + b == a;
    } else {
      var b' := b[..|b| - 1];
      LoopAppend(s, a, b', cb);
      assert (a + b)[..|a + b| - 1] == a + b';
      assert (a + b)[|a + b| - 1] == b[|b| - 1];
    }
  }

  /**
   * The last code assigned stays: once a prefix of the run has left a code
   * and only quiet pipes, a stop-free rest of the schedule returns that code
   * (or raises).
   */
  lemma LastAssignmentStays(s: Supervised, stdout: seq<string>, stderr: seq<string>, a: seq<Step>, b: seq<Step>, cb: Callbacks)
    requires !Loop(Started(s, stdout, stderr), a, cb).raised
    requires Quiet(Loop(Started(s, stdout, stderr), a, cb).state.pipes)
    requires StopRequest !in b
    ensures DownloadSpec(s, stdout, stderr, a + b, cb).outcome
              in {Returned(Loop(Started(s, stdout, stderr), a, cb).state.code), RaisedIndexError}
  {
    var r := Loop(Started(s, stdout, stderr), a, cb);
    LoopAppend(Started(s, stdout, stderr), a, b, cb);
    QuietLoop(r.state, b, cb);
  }

  /** A stderr line followed only by quiet, stop-free passes: download returns ERROR (or raises). */
  lemma ErrorThenQuiet(s: Supervised, stdout: seq<string>, stderr: seq<string>, prefix: seq<Step>, b: seq<Step>, cb: Callbacks)
    requires !Loop(Started(s, stdout, stderr), prefix, cb).raised
    requires ReadLines(Loop(Started(s, stdout, stderr), prefix, cb).state.pipes).stderr != ""
    requires Quiet(ReadLines(Loop(Started(s, stdout, stderr), prefix, cb).state.pipes).rest)
    requires StopRequest !in b
    ensures DownloadSpec(s, stdout, stderr, prefix + [Iterate] + b, cb).outcome in {Returned(ERROR), RaisedIndexError}
  {
    LoopLast(Started(s, stdout, stderr), prefix, Iterate, cb);
    LastAssignmentStays(s, stdout, stderr, prefix + [Iterate], b, cb);
  }

  /** stop() is not final: an error line read after it turns STOPPED into ERROR. */
  lemma StopThenError(s: Supervised, cb: Callbacks)
    ensures DownloadSpec(s, [], ["ERROR: unable to download video"], [StopRequest, Iterate], cb).outcome == Returned(ERROR)
  {
    var started := Started(s, [], ["ERROR: unable to download video"]);
    assert [StopRequest, Iterate] == [StopRequest] + [Iterate];
    LoopLast(started, [StopRequest], Iterate, cb);
    assert [StopRequest] == [] + [StopRequest];
    LoopLast(started, [], StopRequest, cb);
    assert ExtractData("") == Success(map[]);
  }

  /**
   * A `DownloadObject`: the state of `Supervised`, held in fields that its
   * methods update in place.
   */
  class DownloadObject {
    const youtubedlPath: string
    const callbacks: Callbacks
    var returnCode: int
    var filesList: seq<string>
    var data: ProgressData
    var pipes: Pipes
    var procAlive: bool
    var hooked: seq<ProgressData>
    var logged: seq<string>

    /** `_data` always holds the eight keys. */
    ghost predicate Valid()
      reads this
    {
      data.Keys == AllFields
    }

    function State(): Supervised
      reads this
    {
      Supervised(returnCode, filesList, data, pipes, procAlive, hooked, logged)
    }

    /** `__init__`: code 0, no files, no process, every key None. */
    constructor(youtubedlPath: string, callbacks: Callbacks)
      ensures Valid()
      ensures this.youtubedlPath == youtubedlPath && this.callbacks == callbacks
      ensures State() == Supervised(OK, [], EmptyData(), Pipes([], []), false, [], [])
    {
      this.youtubedlPath := youtubedlPath;
      this.callbacks := callbacks;
      returnCode := OK;
      filesList := [];
      data := EmptyData();
      pipes := Pipes([], []);
      procAlive := false;
      hooked := [];
      logged := [];
    }

    /** `files_list`: every full path a Destination line has named, oldest first. */
    function FilesList(): (r: seq<string>)
      reads this
      ensures r == State().files
    {
      filesList
    }

    /** `_update_data`: merge an event; true exactly when it held a key. */
    method UpdateData(ev: Event) returns (updated: bool)
      modifies this`data, this`filesList, this`returnCode
      ensures updated <==> ev != map[]
      ensures State() == Merge(old(State()), ev)
    {
      updated := false;
      var keys := ev.Keys;
      ghost var seen: Event := map[];
      MergeEmpty(State());
      while keys != {}
        invariant keys <= ev.Keys
        invariant seen.Keys == ev.Keys - keys
        invariant forall j :: j in seen ==> seen[j] == ev[j]
        invariant updated <==> seen != map[]
        invariant State() == Merge(old(State()), seen)
        decreases keys
      {
        var k :| k in keys;
        assert k !in seen;
        UpdateKey(k, ev[k]);
        MergeStep(old(State()), seen, k, ev[k]);
        seen := seen[k := ev[k]];
        assert k in seen.Keys;
        updated := true;
        keys := keys - {k};
      }
      SameEvent(seen, ev);
    }

    /** The body of the loop of `_update_data`, for one key and its value. */
    method UpdateKey(k: Field, v: string)
      modifies this`data, this`filesList, this`returnCode
      ensures State() == MergeOne(old(State()), k, v)
    {
      var stored := Some(v);
      if k == Filename {
        AddOnFilesList(v);
        stored := Some(Text.Basename(v));
      } else if k == Status && v == AlreadyDownloaded {
        returnCode := ALREADY;
        stored := None;
      }
      data := data[k := stored];
    }

    /** `_add_on_files_list`. */
    method AddOnFilesList(filename: string)
      modifies this`filesList
      ensures filesList == old(filesList) + [filename]
    {
      filesList := filesList + [filename];
    }

    /** `_hook_data`: the record goes to `data_hook`, if there is one. */
    method HookData()
      modifies this`hooked
      ensures State() == HookSpec(old(State()), callbacks)
    {
      if callbacks.hook {
        hooked := hooked + [data];
      }
    }

    /** `_log`: the line goes to the logger, if there is one. */
    method Log(line: string)
      modifies this`logged
      ensures State() == LogSpec(old(State()), callbacks, line)
    {
      if callbacks.logger {
        logged := logged + [line];
      }
    }

    /** `_read`: one stdout line; a stderr line only when stdout gave nothing. */
    method Read() returns (stdout: string, stderr: string)
      modifies this`pipes
      ensures ReadLines(old(pipes)) == ReadOut(stdout, stderr, pipes)
    {
      stdout, stderr := "", "";
      var out := ReadStream(pipes.stdout);
      stdout, pipes := out.text, pipes.(stdout := out.rest);
      if stdout == "" {
        var err := ReadStream(pipes.stderr);
        stderr, pipes := err.text, pipes.(stderr := err.rest);
      }
    }

    /** `_get_cmd`: the interpreter (not on Windows), the script, the options, the url. */
    function GetCmd(url: string, options: seq<string>, onWindows: bool): (cmd: seq<string>)
      ensures |cmd| == |options| + (if onWindows then 2 else 3)
      ensures cmd[|cmd| - 1] == url
      ensures onWindows ==> cmd[0] == youtubedlPath && cmd[1..|cmd| - 1] == options
      ensures !onWindows ==> cmd[0] == "python" && cmd[1] == youtubedlPath && cmd[2..|cmd| - 1] == options
    {
      if onWindows then [youtubedlPath] + options + [url]
      else ["python", youtubedlPath] + options + [url]
    }

    /** `_create_process`: a live child whose pipes will carry the given lines. */
    method CreateProcess(cmd: seq<string>, stdout: seq<string>, stderr: seq<string>)
      modifies this`pipes, this`procAlive
      ensures pipes == Pipes(stdout, stderr) && procAlive
    {
      pipes := Pipes(stdout, stderr);
      procAlive := true;
    }

    /** `stop`: STOPPED, only while a process is alive. */
    method Stop()
      modifies this`returnCode
      ensures State() == StopSpec(old(State()))
    {
      if procAlive {
        returnCode := STOPPED;
      }
    }

    /** One pass of the loop body of `download`. */
    method IterateOnce() returns (raised: bool)
      requires Valid()
      modifies this`pipes, this`data, this`filesList, this`returnCode, this`hooked, this`logged
      ensures Valid()
      ensures IterateSpec(old(State()), callbacks) == LoopState(State(), raised)
    {
      ghost var s := State();
      var stdout, stderr := Read();
      ghost var s1 := State();
      assert s1 == s.(pipes := ReadLines(s.pipes).rest);
      var extracted := ExtractData(stdout);
      if extracted.Failure? {
        return true;
      }
      var ev := extracted.value;
      var updated := UpdateData(ev);
      ghost var s2 := State();
      if updated {
        HookData();
      }
      ghost var s3 := State();
      assert s3 == if ev != map[] then HookSpec(s2, callbacks) else s2;
      if stderr != "" {
        returnCode := ERROR;
        Log(stderr);
      }
      assert State() == if stderr != "" then LogSpec(s3.(code := ERROR), callbacks, stderr) else s3;
      assert State() == AfterEvent(s1, ev, stderr, callbacks);
      IterateSucceeds(s, callbacks, ev);
      forall k: Field ensures k in AllFields {
        FieldKnown(k);
      }
      raised := false;
    }

    /** What happens between two liveness checks: a call of `stop` or one pass of the loop. */
    method RunStep(step: Step) returns (raised: bool)
      requires Valid()
      modifies this`pipes, this`data, this`filesList, this`returnCode, this`hooked, this`logged
      ensures Valid()
      ensures StepSpec(old(State()), step, callbacks) == LoopState(State(), raised)
    {
      if step == StopRequest {
        Stop();
        raised := false;
      } else {
        raised := IterateOnce();
      }
    }

    /**
     * `download`: reset the code, start youtube-dl, and run the loop over the
     * schedule; IndexError from `extract_data` ends the call.
     */
    method Download(url: string, options: seq<string>, onWindows: bool,
                    stdout: seq<string>, stderr: seq<string>, schedule: seq<Step>) returns (outcome: Outcome)
      requires Valid()
      modifies this
      ensures Valid()
      ensures DownloadSpec(old(State()), stdout, stderr, schedule, callbacks) == Finished(State(), outcome)
    {
      ghost var s := State();
      returnCode := OK;
      var cmd := GetCmd(url, options, onWindows);
      CreateProcess(cmd, stdout, stderr);
      assert State() == Started(s, stdout, stderr);
      var raised := RunSchedule(schedule);
      if raised {
        return RaisedIndexError;
      }
      procAlive := false;
      outcome := Returned(returnCode);
    }

    /** The loop of `download`, one step of the schedule per pass, until an iteration raises. */
    method RunSchedule(schedule: seq<Step>) returns (raised: bool)
      requires Valid()
      modifies this`pipes, this`data, this`filesList, this`returnCode, this`hooked, this`logged
      ensures Valid()
      ensures Loop(old(State()), schedule, callbacks) == LoopState(State(), raised)
    {
      ghost var start := State();
      var i := 0;
      while i < |schedule|
        invariant 0 <= i <= |schedule|
        invariant Valid()
        invariant Loop(start, schedule[..i], callbacks) == LoopState(State(), false)
        decreases |schedule| - i
      {
        LoopNext(start, schedule, i, callbacks);
        raised := RunStep(schedule[i]);
        if raised {
          LoopStopsAtRaise(start, schedule, i + 1, callbacks);
          return;
        }
        i := i + 1;
      }
      assert schedule[..i] == schedule;
      raised := false;
    }

    /** `clear_dash`: every listed file that exists is removed, nothing else is. */
    method ClearDash(existing: set<string>) returns (remaining: set<string>)
      ensures forall f :: f in remaining <==> f in existing && f !in filesList
    {
      remaining := existing;
      for i := 0 to |filesList|
        invariant forall f :: f in remaining <==> f in existing && f !in filesList[..i]
      {
        assert filesList[..i + 1] == filesList[..i] + [filesList[i]];
        if filesList[i] in remaining {
          remaining := remaining - {filesList[i]};
        }
      }
      assert filesList[..|filesList|] == filesList;
    }
  }
}
