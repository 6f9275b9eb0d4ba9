/** The silence-driven splitter of `split_utils.py`: the configuration derived
    from an input path, the names of exported pieces, and the recursion that
    cuts a recording at the midpoints of its silences and cuts again any piece
    longer than 11 seconds.

    A recording is what the splitter observes of an audio file: its duration in
    milliseconds, the text ffmpeg's silencedetect prints for the whole file, and
    the text it prints for the clip between two offsets (in seconds) of the file.
    Exports are recorded as the path written and the offsets of the slice of the
    original recording written there. */
module SplitUtils {
  import opened Python
  import opened Text
  import opened Silence

  /** The longest piece, in milliseconds, exported without being cut again. */
  const MaxSegmentMs: real := 11000.0

  // ---------------------------------------------------------------------------
  // Configuration and names
  // ---------------------------------------------------------------------------

  /** `AudioProcess_Config`. */
  datatype Config = Config(
    filepath: string,
    inputFormat: string,
    exportFormat: string,
    outputFolder: string,
    usableFolder: string,
    notUsableFolder: string,
    timeThreshold: real,
    prefix: string)

  /** `define_process_config`: the format is the lower-cased text after the last
      `.` of the path, the prefix the file name without its last extension. */
  function DefineProcessConfig(filepath: string, timeThreshold: real, outputFolder: string): (c: Config)
    ensures c.filepath == filepath && c.outputFolder == outputFolder && c.timeThreshold == timeThreshold
    ensures c.exportFormat == c.inputFormat && '.' !in c.inputFormat && |c.inputFormat| <= |filepath|
    ensures '.' !in filepath ==> c.inputFormat == AsciiLower(filepath)
    ensures '/' !in c.prefix
  {
    var usableFolder := PathJoin(outputFolder, "Usable_Audios");
    var notUsableFolder := PathJoin(outputFolder, "Not_Usable_Audios");
    var extension := AfterLast(filepath, '.');
    var inputFormat := AsciiLower(extension);
    assert '.' !in inputFormat by {
      forall i | 0 <= i < |inputFormat| ensures inputFormat[i] != '.' {
        assert extension[i] != '.';
      }
    }
    var base := Basename(filepath);
    var prefix := BeforeLast(base, '.');
    assert '/' !in prefix by {
      if '.' in base {
        assert base == prefix + ['.'] + AfterLast(base, '.');
        assert forall i :: 0 <= i < |prefix| ==> prefix[i] == base[i];
      }
    }
    Config(filepath, inputFormat, inputFormat, outputFolder, usableFolder, notUsableFolder, timeThreshold, prefix)
  }

  /** For a path `dir/name.ext`, the prefix is `name` (dots and all) and the
      formats are `ext` lower-cased; the two folders sit in the output folder. */
  lemma {:induction false} ConfigOfPath(dir: string, name: string, ext: string, timeThreshold: real, outputFolder: string)
    requires '/' !in name && '/' !in ext && '.' !in ext
    ensures var c := DefineProcessConfig(dir + "/" + name + "." + ext, timeThreshold, outputFolder);
      && c.prefix == name
      && c.inputFormat == AsciiLower(ext) && c.exportFormat == AsciiLower(ext)
      && c.usableFolder == PathJoin(outputFolder, "Usable_Audios")
      && c.notUsableFolder == PathJoin(outputFolder, "Not_Usable_Audios")
  {
    var file := name + "." + ext;
    var path := dir + "/" + name + "." + ext;
    assert path == PathJoin(dir + "/", file);
    BasenameOfJoin(dir + "/", file);
    assert path == (dir + "/" + name) + "." + ext;
    AfterLastOfSuffix(dir + "/" + name, '.', ext);
    AfterLastOfSuffix(name, '.', ext);
  }

  /** A bare file name `name.ext`, as a path from the current folder: the same
      prefix and formats. */
  lemma {:induction false} ConfigOfName(name: string, ext: string, timeThreshold: real, outputFolder: string)
    requires '/' !in name && '/' !in ext && '.' !in ext
    ensures var c := DefineProcessConfig(name + "." + ext, timeThreshold, outputFolder);
      && c.prefix == name
      && c.inputFormat == AsciiLower(ext) && c.exportFormat == AsciiLower(ext)
      && c.usableFolder == PathJoin(outputFolder, "Usable_Audios")
      && c.notUsableFolder == PathJoin(outputFolder, "Not_Usable_Audios")
  {
    var path := name + "." + ext;
    assert '/' !in path by {
      assert forall i :: 0 <= i < |path| ==> path[i] == (if i < |name| then name[i] else if i == |name| then '.' else ext[i - |name| - 1]);
    }
    assert path == name + ['.'] + ext;
    AfterLastOfSuffix(name, '.', ext);
  }

  /** Around the last `c` of `a + [c] + b`, when `b` holds no `c`, are `a` and `b`. */
  lemma {:induction false} AfterLastOfSuffix(a: string, c: char, b: string)
    requires c !in b
    ensures AfterLast(a + [c] + b, c) == b
    ensures BeforeLast(a + [c] + b, c) == a
  {
    var s := a + [c] + b;
    var i := LastIndexOf(s, c).value;
    assert s[|a|] == c;
    assert forall j :: |a| < j < |s| ==> s[j] == b[j - |a| - 1];
    assert i == |a|;
    assert s[i + 1..] == b;
    assert s[..i] == a;
  }

  /** The value of the `counter` variable: an int, or `None` once a call has
      fallen off the end of `handle_long_segment`. */
  datatype Counter = Count(n: nat) | NoneValue

  /** `str(counter)`. */
  function CounterText(c: Counter): string
  {
    match c
    case Count(n) => NatToString(n)
    case NoneValue => "None"
  }

  /** The path `export_segment` writes for `counter`:
      `output_folder/{prefix}_{str(counter).zfill(4)}.{export_format}`. */
  function ExportPath(cfg: Config, c: Counter): string
  {
    PathJoin(cfg.outputFolder, cfg.prefix + "_" + ZFill(CounterText(c), 4) + "." + cfg.exportFormat)
  }

  /** The name for a number carries the number zero-padded to four digits, and a
      `None` counter is written as `None`. */
  lemma {:induction false} ExportPathForms(cfg: Config, n: nat)
    ensures ExportPath(cfg, Count(n)) == PathJoin(cfg.outputFolder, cfg.prefix + "_" + Padded(n) + "." + cfg.exportFormat)
    ensures ExportPath(cfg, NoneValue) == PathJoin(cfg.outputFolder, cfg.prefix + "_None." + cfg.exportFormat)
  {
    assert ZFill("None", 4) == "None";
    assert cfg.prefix + "_" + "None" + "." + cfg.exportFormat == cfg.prefix + "_None." + cfg.exportFormat;
  }

  /** Distinct counters give distinct paths. */
  lemma {:induction false} ExportPathInjective(cfg: Config, m: nat, n: nat)
    ensures ExportPath(cfg, Count(m)) == ExportPath(cfg, Count(n)) <==> m == n
  {
    if ExportPath(cfg, Count(m)) == ExportPath(cfg, Count(n)) {
      ExportPathForms(cfg, m);
      ExportPathForms(cfg, n);
      NameInjective(cfg.outputFolder, cfg.prefix + "_", Padded(m), Padded(n), cfg.exportFormat);
      PaddedInjective(m, n);
    }
  }

  /** Names `head + digits + "." + format` in one folder differ when their digits do. */
  lemma {:induction false} NameInjective(dir: string, head: string, p: string, q: string, format: string)
    requires |head| > 0 && AllDigits(p) && AllDigits(q)
    requires PathJoin(dir, head + p + "." + format) == PathJoin(dir, head + q + "." + format)
    ensures p == q
  {
    var a := head + p + "." + format;
    var b := head + q + "." + format;
    assert a[0] == head[0] == b[0];
    PathJoinInjective(dir, a, b);
    assert a[|head|..] == p + ['.'] + format;
    assert b[|head|..] == q + ['.'] + format;
    DigitsBeforeSeparator(p, q, '.', format, format);
  }

  // ---------------------------------------------------------------------------
  // One recording
  // ---------------------------------------------------------------------------

  /** What the splitter observes of one input file. */
  datatype Recording = Recording(
    durationMs: nat,                      // `len(AudioSegment.from_file(...))`
    report: string,                       // ffmpeg's output for the whole file
    clipReport: (real, real) -> string)   // ffmpeg's output for the clip between two offsets

  /** `len(self.audio[start * 1000 : end * 1000])`: the slice stops at the end of
      the recording and is empty when it would run backwards. */
  function SegmentLength(durationMs: nat, start: real, end: real): (r: real)
    ensures r >= 0.0
    ensures start <= end ==> r <= (end - start) * 1000.0
    ensures 0.0 <= start <= end && end * 1000.0 <= durationMs as real ==> r == (end - start) * 1000.0
    ensures start * 1000.0 >= durationMs as real ==> r == 0.0
  {
    var stop := if end * 1000.0 < durationMs as real then end * 1000.0 else durationMs as real;
    if stop - start * 1000.0 > 0.0 then stop - start * 1000.0 else 0.0
  }

  /** A piece handed to `export_segment`: `self.audio[start * 1000 : end * 1000]`
      with the counter it is named after; `WrittenFile` gives the file it becomes. */
  datatype Export = Export(number: Counter, start: real, end: real)

  /** A file on disk: the slice of the recording between two offsets. */
  datatype Written = Written(path: string, start: real, end: real)

  /** The file `export_segment` writes for a piece, under configuration `cfg`. */
  function WrittenFile(cfg: Config, x: Export): Written
  {
    Written(ExportPath(cfg, x.number), x.start, x.end)
  }

  /** The files written, in order, for the pieces of one input file. */
  function WrittenFiles(cfg: Config, xs: seq<Export>): (r: seq<Written>)
    ensures |r| == |xs|
  {
    seq(|xs|, i requires 0 <= i < |xs| => WrittenFile(cfg, xs[i]))
  }

  /** How a call ends: it returns a counter, raises, or needs more recursion
      depth than the model allows. */
  datatype Outcome = Returned(counter: Counter) | Raised(error: PyError) | OutOfFuel

  /** The files a call writes, in order, and how it ends. */
  datatype Run = Run(exports: seq<Export>, outcome: Outcome)

  /** The code as it stands, or with the three faults listed under Findings
      corrected: `handle_long_segment` returns its counter, offsets the cut points
      of a clip by the clip's start, and `split_main` skips a file without silence. */
  datatype Variant = AsWritten | Corrected

  /** `counter += 1`. */
  function Bump(c: Counter): (o: Outcome)
    ensures c.Count? ==> o == Returned(Count(c.n + 1))
    ensures c.NoneValue? ==> o == Raised(TypeError)
  {
    match c
    case Count(n) => Returned(Count(n + 1))
    case NoneValue => Raised(TypeError)
  }

  /** The offsets at which a clip starting at `start` is cut: the midpoints of its
      silences, which ffmpeg measures from the start of the clip. */
  function CutPoints(v: Variant, pairs: seq<(real, real)>, start: real): (r: seq<real>)
    ensures |r| == |pairs|
    ensures forall i :: 0 <= i < |r| ==> r[i] == Midpoints(pairs)[i] + (if v.Corrected? then start else 0.0)
  {
    var m := Midpoints(pairs);
    var offset := if v.Corrected? then start else 0.0;
    seq(|m|, i requires 0 <= i < |m| => m[i] + offset)
  }

  /** When ffmpeg's silences for the clip `[start, end]` lie within the clip's own
      time `[0, end - start]`, the corrected cut points lie within `[start, end]`,
      while the points as written lie within `[0, end - start]`, measured from the
      start of the whole recording. */
  lemma {:induction false} CutPointsWithin(v: Variant, pairs: seq<(real, real)>, start: real, end: real)
    requires forall i :: 0 <= i < |pairs| ==> 0.0 <= pairs[i].0 <= pairs[i].1 <= end - start
    ensures v.Corrected? ==> forall i :: 0 <= i < |pairs| ==> start <= CutPoints(v, pairs, start)[i] <= end
    ensures v.AsWritten? ==> forall i :: 0 <= i < |pairs| ==> 0.0 <= CutPoints(v, pairs, start)[i] <= end - start
  {
    forall i | 0 <= i < |pairs|
      ensures pairs[i].0 <= Midpoints(pairs)[i] <= pairs[i].1
    {
      assert pairs[i].0 <= pairs[i].1;
    }
  }

  /** `split_audio(start, end, counter)`: a piece of at most 11 s is exported
      under the current counter; a longer one is handed to `handle_long_segment`. */
  function SplitAudioRun(v: Variant, rec: Recording, start: real, end: real, c: Counter, fuel: nat): Run
    decreases fuel, 1, 0
  {
    if SegmentLength(rec.durationMs, start, end) > MaxSegmentMs then
      if fuel == 0 then Run([], OutOfFuel) else HandleLongRun(v, rec, start, end, c, fuel - 1)
    else Run([Export(c, start, end)], Bump(c))
  }

  /** `handle_long_segment`: detect the silences of the clip and split it between
      consecutive midpoints. As written, it returns `None` after its loop. */
  function HandleLongRun(v: Variant, rec: Recording, start: real, end: real, c: Counter, fuel: nat): Run
    decreases fuel, 3, 0
  {
    match ParseSilences(rec.clipReport(start, end))
    case Failed(e) => Run([], Raised(e))
    case NoSilence => Run([], Returned(c))
    case Silences(pairs) =>
      if |pairs| == 0 then Run([], Returned(c))
      else
        var r := WalkFrom(v, rec, CutPoints(v, pairs, start), 0, c, fuel);
        if v.AsWritten? && r.outcome.Returned? then Run(r.exports, Returned(NoneValue)) else r
  }

  /** The pieces between consecutive points from index `i` on, each split with
      the counter the previous one returned; a raise ends the walk. */
  function WalkFrom(v: Variant, rec: Recording, points: seq<real>, i: nat, c: Counter, fuel: nat): Run
    decreases fuel, 2, |points| - i
  {
    if i + 1 >= |points| then Run([], Returned(c))
    else
      var r := SplitAudioRun(v, rec, points[i], points[i + 1], c, fuel);
      if !r.outcome.Returned? then r
      else Then(r.exports, WalkFrom(v, rec, points, i + 1, r.outcome.counter, fuel))
  }

  /** A run preceded by exports already written. */
  function Then(done: seq<Export>, r: Run): Run
  {
    Run(done + r.exports, r.outcome)
  }

  lemma {:induction false} ThenThen(a: seq<Export>, b: seq<Export>, r: Run)
    ensures Then(a, Then(b, r)) == Then(a + b, r)
  {
    assert a + (b + r.exports) == (a + b) + r.exports;
  }

  /** What `split_main` does with one file: counter 1, then the pieces between 0
      and the first midpoint, and between consecutive midpoints. An empty list of
      silences is skipped; the string saying no silence was found is truthy, so
      as written `extract_midpoints` tries to unpack its characters. */
  function FileRun(v: Variant, rec: Recording, fuel: nat): Run
  {
    match ParseSilences(rec.report)
    case Failed(e) => Run([], Raised(e))
    case NoSilence => if v.AsWritten? then Run([], Raised(ValueError)) else Run([], Returned(Count(1)))
    case Silences(pairs) =>
      if |pairs| == 0 then Run([], Returned(Count(1)))
      else WalkFrom(v, rec, [0.0] + Midpoints(pairs), 0, Count(1), fuel)
  }

  /** How `split_main` ends. */
  datatype Ending = Completed | Aborted(error: PyError) | FuelExhausted

  /** The end of a batch stopped by a file's run that did not return. */
  function Stopped(o: Outcome): (e: Ending)
    ensures o.Raised? ==> e == Aborted(o.error)
    ensures o.OutOfFuel? ==> e == FuelExhausted
  {
    if o.Raised? then Aborted(o.error) else FuelExhausted
  }

  /** The files `split_main` writes, in order, and how it ends. */
  datatype Batch = Batch(files: seq<Written>, ending: Ending)

  /** `split_main(files, time_threshold, output_folder)`, where `open` gives the
      recording behind each path. A raise ends the whole batch. */
  function SplitMainRun(v: Variant, files: seq<string>, timeThreshold: real, outputFolder: string,
                        open: string -> Recording, fuel: nat): Batch
    decreases |files|
  {
    if |files| == 0 then Batch([], Completed)
    else
      var r := FileRun(v, open(files[0]), fuel);
      var written := WrittenFiles(DefineProcessConfig(files[0], timeThreshold, outputFolder), r.exports);
      if r.outcome.Returned? then Continued(written, SplitMainRun(v, files[1..], timeThreshold, outputFolder, open, fuel))
      else Batch(written, Stopped(r.outcome))
  }

  // ---------------------------------------------------------------------------
  // The methods
  // ---------------------------------------------------------------------------

  /** `AudioProcessor.split_audio`. */
  method SplitAudio(v: Variant, rec: Recording, startPoint: real, endPoint: real, counter: Counter, fuel: nat)
    returns (r: Run)
    ensures r == SplitAudioRun(v, rec, startPoint, endPoint, counter, fuel)
    decreases fuel, 1, 0
  {
    var segmentLength := SegmentLength(rec.durationMs, startPoint, endPoint);
    if segmentLength > MaxSegmentMs {
      if fuel == 0 {
        return Run([], OutOfFuel);
      }
      r := HandleLongSegment(v, rec, startPoint, endPoint, counter, fuel - 1);
    } else {
      r := Run([Export(counter, startPoint, endPoint)], Bump(counter));
    }
  }

  /** `AudioProcessor.handle_long_segment`. */
  method HandleLongSegment(v: Variant, rec: Recording, startPoint: real, endPoint: real, counter: Counter, fuel: nat)
    returns (r: Run)
    ensures r == HandleLongRun(v, rec, startPoint, endPoint, counter, fuel)
    decreases fuel, 3, 0
  {
    var newSilencePeriods := DetectSilences(rec.clipReport(startPoint, endPoint));
    if newSilencePeriods.Failed? {
      return Run([], Raised(newSilencePeriods.error));
    }
    if newSilencePeriods.NoSilence? || |newSilencePeriods.pairs| == 0 {
      return Run([], Returned(counter));
    }
    var newMidpoints := CutPoints(v, newSilencePeriods.pairs, startPoint);
    ghost var whole := WalkFrom(v, rec, newMidpoints, 0, counter, fuel);
    var exports: seq<Export> := [];
    var current := counter;
    var i := 0;
    while i < |newMidpoints| - 1
      invariant 0 <= i <= |newMidpoints|
      invariant Then(exports, WalkFrom(v, rec, newMidpoints, i, current, fuel)) == whole
      decreases |newMidpoints| - i
    {
      var step := SplitAudio(v, rec, newMidpoints[i], newMidpoints[i + 1], current, fuel);
      if !step.outcome.Returned? {
        return Run(exports + step.exports, step.outcome);
      }
      ThenThen(exports, step.exports, WalkFrom(v, rec, newMidpoints, i + 1, step.outcome.counter, fuel));
      exports := exports + step.exports;
      current := step.outcome.counter;
      i := i + 1;
    }
    if v.AsWritten? {
      return Run(exports, Returned(NoneValue));
    }
    return Run(exports, Returned(current));
  }

  /** `split_main`. */
  method SplitMain(v: Variant, files: seq<string>, timeThreshold: real, outputFolder: string,
                   open: string -> Recording, fuel: nat)
    returns (b: Batch)
    ensures b == SplitMainRun(v, files, timeThreshold, outputFolder, open, fuel)
  {
    ghost var whole := SplitMainRun(v, files, timeThreshold, outputFolder, open, fuel);
    var written: seq<Written> := [];
    var remaining := files;
    assert whole == Continued(written, whole);
    while |remaining| > 0
      invariant whole == Continued(written, SplitMainRun(v, remaining, timeThreshold, outputFolder, open, fuel))
    {
      var fileRun, fileWritten := SplitFile(v, remaining, timeThreshold, outputFolder, open, fuel, written);
      if !fileRun.outcome.Returned? {
        return Batch(written + fileWritten, Stopped(fileRun.outcome));
      }
      written := written + fileWritten;
      remaining := remaining[1..];
    }
    return Batch(written, Completed);
  }

  /** One pass of `split_main`'s loop, on the first of the files left: its
      configuration, its run and the files that run writes. */
  method SplitFile(v: Variant, files: seq<string>, timeThreshold: real, outputFolder: string,
                   open: string -> Recording, fuel: nat, ghost done: seq<Written>)
    returns (fileRun: Run, fileWritten: seq<Written>)
    requires |files| > 0
    ensures !fileRun.outcome.Returned? ==>
      Continued(done, SplitMainRun(v, files, timeThreshold, outputFolder, open, fuel)) == Batch(done + fileWritten, Stopped(fileRun.outcome))
    ensures fileRun.outcome.Returned? ==>
      Continued(done, SplitMainRun(v, files, timeThreshold, outputFolder, open, fuel))
      == Continued(done + fileWritten, SplitMainRun(v, files[1..], timeThreshold, outputFolder, open, fuel))
  {
    var file := files[0];
    var processConfig := DefineProcessConfig(file, timeThreshold, outputFolder);
    var ap := open(file);
    fileRun := ProcessFile(v, ap, fuel);
    fileWritten := WrittenFiles(processConfig, fileRun.exports);
    SplitMainStep(v, files, timeThreshold, outputFolder, open, fuel, done, fileRun, fileWritten);
  }

  /** A batch preceded by files already written. */
  function Continued(done: seq<Written>, b: Batch): Batch
  {
    Batch(done + b.files, b.ending)
  }

  lemma {:induction false} ContinuedContinued(a: seq<Written>, b: seq<Written>, r: Batch)
    ensures Continued(a, Continued(b, r)) == Continued(a + b, r)
  {
    assert a + (b + r.files) == (a + b) + r.files;
  }

  /** One file of `split_main`: after `r`, the run of the first file, which
      writes `w`, the batch goes on with the other files or ends. */
  lemma {:induction false} SplitMainStep(v: Variant, files: seq<string>, timeThreshold: real, outputFolder: string,
                      open: string -> Recording, fuel: nat, done: seq<Written>, r: Run, w: seq<Written>)
    requires |files| > 0
    requires r == FileRun(v, open(files[0]), fuel)
    requires w == WrittenFiles(DefineProcessConfig(files[0], timeThreshold, outputFolder), r.exports)
    ensures !r.outcome.Returned? ==>
      Continued(done, SplitMainRun(v, files, timeThreshold, outputFolder, open, fuel)) == Batch(done + w, Stopped(r.outcome))
    ensures r.outcome.Returned? ==>
      Continued(done, SplitMainRun(v, files, timeThreshold, outputFolder, open, fuel))
      == Continued(done + w, SplitMainRun(v, files[1..], timeThreshold, outputFolder, open, fuel))
  {
    if r.outcome.Returned? {
      ContinuedContinued(done, w, SplitMainRun(v, files[1..], timeThreshold, outputFolder, open, fuel));
    }
  }

  /** The body of `split_main`'s loop for one file: detect, take midpoints, and
      split from 0 to each midpoint in turn. */
  method ProcessFile(v: Variant, ap: Recording, fuel: nat) returns (r: Run)
    ensures r == FileRun(v, ap, fuel)
  {
    var counter := Count(1);
    var silenceList := DetectSilences(ap.report);
    if silenceList.Failed? {
      return Run([], Raised(silenceList.error));
    }
    if silenceList.NoSilence? {
      if v.AsWritten? {
        return Run([], Raised(ValueError));
      }
      return Run([], Returned(counter));
    }
    if |silenceList.pairs| == 0 {
      return Run([], Returned(counter));
    }
    var midpoints := Midpoints(silenceList.pairs);
    r := SplitFromStart(v, ap, midpoints, fuel);
  }

  /** The loop of `split_main` over the midpoints of one file: split from 0 to
      the first midpoint, then from each midpoint to the next. */
  method SplitFromStart(v: Variant, ap: Recording, midpoints: seq<real>, fuel: nat) returns (r: Run)
    ensures r == WalkFrom(v, ap, [0.0] + midpoints, 0, Count(1), fuel)
  {
    var counter := Count(1);
    ghost var points := [0.0] + midpoints;
    ghost var whole := WalkFrom(v, ap, points, 0, counter, fuel);
    var exports: seq<Export> := [];
    var startPoint := 0.0;
    var j := 0;
    while j < |midpoints|
      invariant 0 <= j <= |midpoints| && startPoint == points[j]
      invariant Then(exports, WalkFrom(v, ap, points, j, counter, fuel)) == whole
    {
      var endPoint := midpoints[j];
      assert endPoint == points[j + 1];
      var step := SplitAudio(v, ap, startPoint, endPoint, counter, fuel);
      if !step.outcome.Returned? {
        return Run(exports + step.exports, step.outcome);
      }
      ThenThen(exports, step.exports, WalkFrom(v, ap, points, j + 1, step.outcome.counter, fuel));
      exports := exports + step.exports;
      counter := step.outcome.counter;
      startPoint := endPoint;
      j := j + 1;
    }
    return Run(exports, Returned(counter));
  }

  // ---------------------------------------------------------------------------
  // Properties of the recursion
  // ---------------------------------------------------------------------------

  /** `split_audio` writes a piece of at most 11 s as one file, named after the
      current counter, and returns the next number; with a `None` counter the
      file is still written (as `..._None.fmt`, by `ExportPathForms`) and then
      `None + 1` raises. */
  lemma {:induction false} ShortPieceExported(v: Variant, cfg: Config, rec: Recording, start: real, end: real, c: Counter, fuel: nat)
    requires SegmentLength(rec.durationMs, start, end) <= MaxSegmentMs
    ensures var r := SplitAudioRun(v, rec, start, end, c, fuel);
      && WrittenFiles(cfg, r.exports) == [Written(ExportPath(cfg, c), start, end)]
      && r.outcome == (if c.Count? then Returned(Count(c.n + 1)) else Raised(TypeError))
  {
    var x := Export(c, start, end);
    assert SplitAudioRun(v, rec, start, end, c, fuel).exports == [x];
    assert WrittenFiles(cfg, [x]) == [WrittenFile(cfg, x)];
  }

  /** A long piece whose clip has no silence, or an empty list of them, is
      dropped: nothing is exported and the counter comes back unchanged. */
  lemma {:induction false} LongPieceWithoutSilence(v: Variant, rec: Recording, start: real, end: real, c: Counter, fuel: nat)
    requires SegmentLength(rec.durationMs, start, end) > MaxSegmentMs && fuel > 0
    requires ParseSilences(rec.clipReport(start, end)).NoSilence? || ParseSilences(rec.clipReport(start, end)) == Silences([])
    ensures SplitAudioRun(v, rec, start, end, c, fuel) == Run([], Returned(c))
  {
  }

  /** Every exported piece is at most 11 s long. */
  predicate AllShort(durationMs: nat, xs: seq<Export>)
  {
    forall i :: 0 <= i < |xs| ==> SegmentLength(durationMs, xs[i].start, xs[i].end) <= MaxSegmentMs
  }

  lemma {:induction false} AllShortAppend(durationMs: nat, a: seq<Export>, b: seq<Export>)
    requires AllShort(durationMs, a) && AllShort(durationMs, b)
    ensures AllShort(durationMs, a + b)
  {
    forall i | 0 <= i < |a + b| ensures SegmentLength(durationMs, (a + b)[i].start, (a + b)[i].end) <= MaxSegmentMs {
      if i >= |a| {
        assert (a + b)[i] == b[i - |a|];
      }
    }
  }

  /** `split_audio` never exports a piece longer than 11 s, whatever the variant. */
  lemma {:induction false} SplitAudioShort(v: Variant, rec: Recording, start: real, end: real, c: Counter, fuel: nat)
    ensures AllShort(rec.durationMs, SplitAudioRun(v, rec, start, end, c, fuel).exports)
    decreases fuel, 1, 0
  {
    if SegmentLength(rec.durationMs, start, end) > MaxSegmentMs && fuel > 0 {
      HandleLongShort(v, rec, start, end, c, fuel - 1);
    }
  }

  lemma {:induction false} HandleLongShort(v: Variant, rec: Recording, start: real, end: real, c: Counter, fuel: nat)
    ensures AllShort(rec.durationMs, HandleLongRun(v, rec, start, end, c, fuel).exports)
    decreases fuel, 3, 0
  {
    var d := ParseSilences(rec.clipReport(start, end));
    if d.Silences? && |d.pairs| > 0 {
      WalkShort(v, rec, CutPoints(v, d.pairs, start), 0, c, fuel);
    }
  }

  lemma {:induction false} WalkShort(v: Variant, rec: Recording, points: seq<real>, i: nat, c: Counter, fuel: nat)
    ensures AllShort(rec.durationMs, WalkFrom(v, rec, points, i, c, fuel).exports)
    decreases fuel, 2, |points| - i
  {
    if i + 1 < |points| {
      var r := SplitAudioRun(v, rec, points[i], points[i + 1], c, fuel);
      SplitAudioShort(v, rec, points[i], points[i + 1], c, fuel);
      if r.outcome.Returned? {
        var rest := WalkFrom(v, rec, points, i + 1, r.outcome.counter, fuel);
        WalkShort(v, rec, points, i + 1, r.outcome.counter, fuel);
        AllShortAppend(rec.durationMs, r.exports, rest.exports);
      }
    }
  }

  /** Every piece `split_main` writes for a file is at most 11 s long. */
  lemma {:induction false} FileShort(v: Variant, rec: Recording, fuel: nat)
    ensures AllShort(rec.durationMs, FileRun(v, rec, fuel).exports)
  {
    var d := ParseSilences(rec.report);
    if d.Silences? && |d.pairs| > 0 {
      WalkShort(v, rec, [0.0] + Midpoints(d.pairs), 0, Count(1), fuel);
    }
  }

  /** The pieces between consecutive points from index `i` on, numbered from `n`:
      what the walk writes when none of them needs cutting again. */
  function ShortExports(points: seq<real>, i: nat, n: nat): seq<Export>
    decreases |points| - i
  {
    if i + 1 >= |points| then []
    else [Export(Count(n), points[i], points[i + 1])] + ShortExports(points, i + 1, n + 1)
  }

  /** The number of pieces between consecutive points from index `i` on. */
  function PieceCount(points: seq<real>, i: nat): nat
  {
    if i + 1 >= |points| then 0 else |points| - 1 - i
  }

  /** When no piece exceeds 11 s, the walk exports every piece between
      consecutive points, in order, numbered from `n`, and returns the next number. */
  lemma {:induction false} ShortWalk(v: Variant, rec: Recording, points: seq<real>, i: nat, n: nat, fuel: nat)
    requires forall j :: i <= j < |points| - 1 ==> SegmentLength(rec.durationMs, points[j], points[j + 1]) <= MaxSegmentMs
    ensures WalkFrom(v, rec, points, i, Count(n), fuel)
      == Run(ShortExports(points, i, n), Returned(Count(n + PieceCount(points, i))))
    decreases |points| - i
  {
    if i + 1 < |points| {
      ShortWalk(v, rec, points, i + 1, n + 1, fuel);
    }
  }

  /** A file whose pieces between 0 and consecutive midpoints are all short is
      exported piece by piece, numbered 1, 2, ..., one piece per silence. */
  lemma {:induction false} ShortFile(v: Variant, rec: Recording, fuel: nat)
    requires ParseSilences(rec.report).Silences?
    requires var points := [0.0] + Midpoints(ParseSilences(rec.report).pairs);
      forall j :: 0 <= j < |points| - 1 ==> SegmentLength(rec.durationMs, points[j], points[j + 1]) <= MaxSegmentMs
    ensures var pairs := ParseSilences(rec.report).pairs;
      FileRun(v, rec, fuel) == Run(ShortExports([0.0] + Midpoints(pairs), 0, 1), Returned(Count(|pairs| + 1)))
  {
    var pairs := ParseSilences(rec.report).pairs;
    if |pairs| > 0 {
      ShortWalk(v, rec, [0.0] + Midpoints(pairs), 0, 1, fuel);
    }
  }

  // ---------------------------------------------------------------------------
  // Numbering, with the counter returned
  // ---------------------------------------------------------------------------

  /** Piece `j` is named with number `n + j`. */
  predicate NumberedFrom(xs: seq<Export>, n: nat)
  {
    forall j :: 0 <= j < |xs| ==> xs[j].number == Count(n + j)
  }

  /** A run that started from number `n`: its pieces are numbered `n`, `n + 1`,
      ..., a counter it returns is the next number, and it never adds to `None`. */
  predicate CountedFrom(r: Run, n: nat)
  {
    && NumberedFrom(r.exports, n)
    && (r.outcome.Returned? ==> r.outcome.counter == Count(n + |r.exports|))
    && r.outcome != Raised(TypeError)
  }

  lemma {:induction false} NumberedAppend(a: seq<Export>, b: seq<Export>, n: nat)
    requires NumberedFrom(a, n) && NumberedFrom(b, n + |a|)
    ensures NumberedFrom(a + b, n)
  {
    forall j | 0 <= j < |a + b| ensures (a + b)[j].number == Count(n + j) {
      if j >= |a| {
        assert (a + b)[j] == b[j - |a|];
      }
    }
  }

  /** With `handle_long_segment` returning its counter, `split_audio` numbers its
      pieces consecutively from the counter it is given. */
  lemma {:induction false} CorrectedSplitAudioCounted(rec: Recording, start: real, end: real, n: nat, fuel: nat)
    ensures CountedFrom(SplitAudioRun(Corrected, rec, start, end, Count(n), fuel), n)
    decreases fuel, 1, 0
  {
    if SegmentLength(rec.durationMs, start, end) > MaxSegmentMs {
      if fuel > 0 {
        CorrectedHandleLongCounted(rec, start, end, n, fuel - 1);
      }
    } else {
      SinglePieceCounted(Export(Count(n), start, end), n);
    }
  }

  lemma {:induction false} SinglePieceCounted(x: Export, n: nat)
    requires x.number == Count(n)
    ensures CountedFrom(Run([x], Bump(Count(n))), n)
  {
    assert n + 0 == n;
  }

  lemma {:induction false} CorrectedHandleLongCounted(rec: Recording, start: real, end: real, n: nat, fuel: nat)
    ensures CountedFrom(HandleLongRun(Corrected, rec, start, end, Count(n), fuel), n)
    decreases fuel, 3, 0
  {
    var d := ParseSilences(rec.clipReport(start, end));
    if d.Silences? && |d.pairs| > 0 {
      CorrectedWalkCounted(rec, CutPoints(Corrected, d.pairs, start), 0, n, fuel);
    }
  }

  lemma {:induction false} CorrectedWalkCounted(rec: Recording, points: seq<real>, i: nat, n: nat, fuel: nat)
    ensures CountedFrom(WalkFrom(Corrected, rec, points, i, Count(n), fuel), n)
    decreases fuel, 2, |points| - i
  {
    if i + 1 < |points| {
      var r := SplitAudioRun(Corrected, rec, points[i], points[i + 1], Count(n), fuel);
      CorrectedSplitAudioCounted(rec, points[i], points[i + 1], n, fuel);
      if r.outcome.Returned? {
        var m := n + |r.exports|;
        var rest := WalkFrom(Corrected, rec, points, i + 1, Count(m), fuel);
        CorrectedWalkCounted(rec, points, i + 1, m, fuel);
        NumberedAppend(r.exports, rest.exports, n);
      }
    }
  }

  /** With the findings corrected, the pieces of a file are numbered 1, 2, ...
      and no two of them are written to the same path. */
  lemma {:induction false} CorrectedFileNumbering(cfg: Config, rec: Recording, fuel: nat)
    ensures var xs := FileRun(Corrected, rec, fuel).exports;
      && NumberedFrom(xs, 1)
      && var w := WrittenFiles(cfg, xs);
         forall i, j :: 0 <= i < j < |w| ==> w[i].path != w[j].path
  {
    var d := ParseSilences(rec.report);
    if d.Silences? && |d.pairs| > 0 {
      CorrectedWalkCounted(rec, [0.0] + Midpoints(d.pairs), 0, 1, fuel);
    }
    NumberedPathsDistinct(cfg, FileRun(Corrected, rec, fuel).exports, 1);
  }

  /** Pieces numbered consecutively are written to pairwise different paths. */
  lemma {:induction false} NumberedPathsDistinct(cfg: Config, xs: seq<Export>, n: nat)
    requires NumberedFrom(xs, n)
    ensures var w := WrittenFiles(cfg, xs);
      forall i, j :: 0 <= i < j < |w| ==> w[i].path != w[j].path
  {
    var w := WrittenFiles(cfg, xs);
    forall i, j | 0 <= i < j < |w| ensures w[i].path != w[j].path {
      assert w[i] == WrittenFile(cfg, xs[i]) && w[j] == WrittenFile(cfg, xs[j]);
      NumbersApart(cfg, xs[i], xs[j]);
    }
  }

  lemma {:induction false} NumbersApart(cfg: Config, x: Export, y: Export)
    requires x.number.Count? && y.number.Count? && x.number != y.number
    ensures WrittenFile(cfg, x).path != WrittenFile(cfg, y).path
  {
    ExportPathInjective(cfg, x.number.n, y.number.n);
  }

  // ---------------------------------------------------------------------------
  // Offsets, with the cut points of a clip shifted by its start
  // ---------------------------------------------------------------------------

  /** ffmpeg reports the silences of a clip inside the clip: between 0 and its length. */
  predicate WithinClip(d: Detection, length: real)
  {
    d.Silences? ==> forall i :: 0 <= i < |d.pairs| ==> 0.0 <= d.pairs[i].0 <= d.pairs[i].1 <= length
  }

  /** The silences of every clip of the recording lie inside that clip. */
  ghost predicate DetectsWithinClips(rec: Recording)
  {
    forall start: real, end: real :: WithinClip(ParseSilences(rec.clipReport(start, end)), end - start)
  }

  /** Every piece lies between the offsets `lo` and `hi`. */
  predicate Inside(xs: seq<Export>, lo: real, hi: real)
  {
    forall i :: 0 <= i < |xs| ==> lo <= xs[i].start && xs[i].end <= hi
  }

  lemma {:induction false} InsideAppend(a: seq<Export>, b: seq<Export>, lo: real, hi: real)
    requires Inside(a, lo, hi) && Inside(b, lo, hi)
    ensures Inside(a + b, lo, hi)
  {
    forall i | 0 <= i < |a + b| ensures lo <= (a + b)[i].start && (a + b)[i].end <= hi {
      if i >= |a| {
        assert (a + b)[i] == b[i - |a|];
      }
    }
  }

  /** With the cut points shifted by the clip's start, every piece `split_audio`
      exports lies inside the piece it was asked to split. */
  lemma {:induction false} CorrectedSplitAudioInside(rec: Recording, start: real, end: real, c: Counter, fuel: nat)
    requires DetectsWithinClips(rec)
    ensures Inside(SplitAudioRun(Corrected, rec, start, end, c, fuel).exports, start, end)
    decreases fuel, 1, 0
  {
    if SegmentLength(rec.durationMs, start, end) > MaxSegmentMs && fuel > 0 {
      CorrectedHandleLongInside(rec, start, end, c, fuel - 1);
    }
  }

  lemma {:induction false} CorrectedHandleLongInside(rec: Recording, start: real, end: real, c: Counter, fuel: nat)
    requires DetectsWithinClips(rec)
    ensures Inside(HandleLongRun(Corrected, rec, start, end, c, fuel).exports, start, end)
    decreases fuel, 3, 0
  {
    var d := ParseSilences(rec.clipReport(start, end));
    assert WithinClip(d, end - start);
    if d.Silences? && |d.pairs| > 0 {
      var points := CutPoints(Corrected, d.pairs, start);
      CutPointsWithin(Corrected, d.pairs, start, end);
      CorrectedWalkInside(rec, points, 0, c, fuel, start, end);
    }
  }

  lemma {:induction false} CorrectedWalkInside(rec: Recording, points: seq<real>, i: nat, c: Counter, fuel: nat,
                                               lo: real, hi: real)
    requires DetectsWithinClips(rec)
    requires forall j :: i <= j < |points| ==> lo <= points[j] <= hi
    ensures Inside(WalkFrom(Corrected, rec, points, i, c, fuel).exports, lo, hi)
    decreases fuel, 2, |points| - i
  {
    if i + 1 < |points| {
      var r := SplitAudioRun(Corrected, rec, points[i], points[i + 1], c, fuel);
      CorrectedSplitAudioInside(rec, points[i], points[i + 1], c, fuel);
      assert Inside(r.exports, lo, hi);
      if r.outcome.Returned? {
        var rest := WalkFrom(Corrected, rec, points, i + 1, r.outcome.counter, fuel);
        CorrectedWalkInside(rec, points, i + 1, r.outcome.counter, fuel, lo, hi);
        InsideAppend(r.exports, rest.exports, lo, hi);
      }
    }
  }

  /** With the cut points shifted, every piece of a file lies inside the
      recording, when ffmpeg's silences do. */
  lemma {:induction false} CorrectedFileInside(rec: Recording, fuel: nat)
    requires DetectsWithinClips(rec)
    requires WithinClip(ParseSilences(rec.report), rec.durationMs as real / 1000.0)
    ensures Inside(FileRun(Corrected, rec, fuel).exports, 0.0, rec.durationMs as real / 1000.0)
  {
    var d := ParseSilences(rec.report);
    if d.Silences? && |d.pairs| > 0 {
      var points := [0.0] + Midpoints(d.pairs);
      forall j | 0 <= j < |points| ensures 0.0 <= points[j] <= rec.durationMs as real / 1000.0 {
        if j > 0 {
          assert points[j] == Midpoints(d.pairs)[j - 1];
        }
      }
      CorrectedWalkInside(rec, points, 0, Count(1), fuel, 0.0, rec.durationMs as real / 1000.0);
    }
  }

  // ---------------------------------------------------------------------------
  // A file without silence
  // ---------------------------------------------------------------------------

  /** As written, a file in which ffmpeg finds no silence makes `split_main`
      raise: the message it gets back is a non-empty string, and unpacking its
      first character into `start, end` fails. The files after it are never read. */
  lemma {:induction false} AsWrittenNoSilenceAborts(files: seq<string>, timeThreshold: real, outputFolder: string,
                                 open: string -> Recording, fuel: nat)
    requires |files| > 0 && Find(open(files[0]).report, Marker).None?
    ensures SplitMainRun(AsWritten, files, timeThreshold, outputFolder, open, fuel) == Batch([], Aborted(ValueError))
  {
  }

  /** With the message treated as no silence, such a file is skipped and the
      batch goes on with the next file. */
  lemma {:induction false} CorrectedNoSilenceSkips(files: seq<string>, timeThreshold: real, outputFolder: string,
                                open: string -> Recording, fuel: nat)
    requires |files| > 0 && Find(open(files[0]).report, Marker).None?
    ensures SplitMainRun(Corrected, files, timeThreshold, outputFolder, open, fuel)
      == SplitMainRun(Corrected, files[1..], timeThreshold, outputFolder, open, fuel)
  {
    var rest := SplitMainRun(Corrected, files[1..], timeThreshold, outputFolder, open, fuel);
    assert [] + rest.files == rest.files;
  }

  // ---------------------------------------------------------------------------
  // A recording that shows the two faults of `handle_long_segment`
  // ---------------------------------------------------------------------------

  /** ffmpeg's report for a 40 s recording with silences at 4-6 s, 29-31 s and 34-36 s. */
  function ScenarioReport(): string
  {
    Report("", Render([(4000, 6000), (29000, 31000), (34000, 36000)]))
  }

  /** ffmpeg's report for its clip from 5 s to 30 s: silences at 1-3 s and 9-11 s
      of the clip, that is 6-8 s and 14-16 s of the recording. */
  function ScenarioClipReport(): string
  {
    Report("", Render([(1000, 3000), (9000, 11000)]))
  }

  function ScenarioRecording(): Recording
  {
    Recording(40000, ScenarioReport(), (start: real, end: real) => if start == 5.0 && end == 30.0 then ScenarioClipReport() else "")
  }

  lemma {:induction false} ScenarioDetections()
    ensures ParseSilences(ScenarioReport()) == Silences(ScenarioSilences())
    ensures ParseSilences(ScenarioClipReport()) == Silences(ScenarioClipSilences())
  {
    ScenarioMainDetection();
    ScenarioClipDetection();
  }

  lemma {:induction false} ScenarioMainDetection()
    ensures ParseSilences(ScenarioReport()) == Silences(ScenarioSilences())
  {
    var ms: seq<(nat, nat)> := [(4000, 6000), (29000, 31000), (34000, 36000)];
    InSecondsOfThree(ms);
    ReportDetects(ms, ScenarioSilences());
  }

  lemma {:induction false} ScenarioClipDetection()
    ensures ParseSilences(ScenarioClipReport()) == Silences(ScenarioClipSilences())
  {
    var ms: seq<(nat, nat)> := [(1000, 3000), (9000, 11000)];
    assert InSeconds(ms) == ScenarioClipSilences();
    ReportDetects(ms, ScenarioClipSilences());
  }

  lemma {:induction false} InSecondsOfThree(ms: seq<(nat, nat)>)
    requires ms == [(4000, 6000), (29000, 31000), (34000, 36000)]
    ensures InSeconds(ms) == ScenarioSilences()
  {
  }

  function ScenarioSilences(): seq<(real, real)>
  {
    [(4.0, 6.0), (29.0, 31.0), (34.0, 36.0)]
  }

  function ScenarioClipSilences(): seq<(real, real)>
  {
    [(1.0, 3.0), (9.0, 11.0)]
  }

  lemma {:induction false} ReportDetects(silences: seq<(nat, nat)>, pairs: seq<(real, real)>)
    requires |silences| > 0 && InSeconds(silences) == pairs
    ensures ParseSilences(Report("", Render(silences))) == Silences(pairs)
  {
    ParseReport("", silences);
  }

  /** What the splitter observes of the scenario's recording. */
  predicate ScenarioObserved(rec: Recording)
  {
    && rec.durationMs == 40000
    && ParseSilences(rec.report) == Silences(ScenarioSilences())
    && ParseSilences(rec.clipReport(5.0, 30.0)) == Silences(ScenarioClipSilences())
  }

  lemma {:induction false} ScenarioRecordingObserved()
    ensures ScenarioObserved(ScenarioRecording())
  {
    ScenarioDetections();
  }

  /** The long piece 5-30 s, split with counter 2: as written it is cut at 2 s and
      10 s of the recording and returns `None`; corrected, at 7 s and 15 s,
      returning 3. */
  lemma {:induction false} ScenarioLongPiece(v: Variant, rec: Recording, fuel: nat)
    requires ScenarioObserved(rec)
    ensures HandleLongRun(v, rec, 5.0, 30.0, Count(2), fuel)
      == if v.AsWritten? then Run([Export(Count(2), 2.0, 10.0)], Returned(NoneValue))
         else Run([Export(Count(2), 7.0, 15.0)], Returned(Count(3)))
  {
    var pairs := ScenarioClipSilences();
    var points := CutPoints(v, pairs, 5.0);
    var lo, hi := if v.AsWritten? then 2.0 else 7.0, if v.AsWritten? then 10.0 else 15.0;
    assert points == [lo, hi];
    assert SegmentLength(rec.durationMs, lo, hi) == 8000.0;
    ShortWalk(v, rec, points, 0, 2, fuel);
    assert ShortExports(points, 1, 3) == [];
  }

  /** One step of the walk, unfolded. */
  lemma {:induction false} WalkStep(v: Variant, rec: Recording, points: seq<real>, i: nat, c: Counter, fuel: nat, r: Run, rest: Run)
    requires i + 1 < |points|
    requires r == SplitAudioRun(v, rec, points[i], points[i + 1], c, fuel)
    requires r.outcome.Returned? ==> rest == WalkFrom(v, rec, points, i + 1, r.outcome.counter, fuel)
    ensures WalkFrom(v, rec, points, i, c, fuel) == if r.outcome.Returned? then Then(r.exports, rest) else r
  {
  }

  /** The cut points of the scenario's recording. */
  lemma {:induction false} ScenarioPoints()
    ensures [0.0] + Midpoints(ScenarioSilences()) == [0.0, 5.0, 30.0, 35.0]
  {
  }

  /** The first piece, 0-5 s, and the last one, 30-35 s, are short. */
  lemma {:induction false} ScenarioShortPieces(v: Variant, rec: Recording, c: Counter, fuel: nat)
    requires ScenarioObserved(rec)
    ensures SplitAudioRun(v, rec, 0.0, 5.0, c, fuel) == Run([Export(c, 0.0, 5.0)], Bump(c))
    ensures SplitAudioRun(v, rec, 30.0, 35.0, c, fuel) == Run([Export(c, 30.0, 35.0)], Bump(c))
  {
    assert SegmentLength(rec.durationMs, 0.0, 5.0) == 5000.0;
    assert SegmentLength(rec.durationMs, 30.0, 35.0) == 5000.0;
  }

  /** The piece 5-30 s is long and handed to `handle_long_segment`. */
  lemma {:induction false} ScenarioLongMiddle(v: Variant, rec: Recording, fuel: nat)
    requires ScenarioObserved(rec) && fuel >= 1
    ensures SplitAudioRun(v, rec, 5.0, 30.0, Count(2), fuel)
      == if v.AsWritten? then Run([Export(Count(2), 2.0, 10.0)], Returned(NoneValue))
         else Run([Export(Count(2), 7.0, 15.0)], Returned(Count(3)))
  {
    assert SegmentLength(rec.durationMs, 5.0, 30.0) == 25000.0;
    ScenarioLongPiece(v, rec, fuel - 1);
  }

  /** As written, the recording is exported as 0-5 s under number 1, then 2-10 s
      (outside the piece 5-30 s it was cut from) under number 2, then 30-35 s
      under the name `..._None.fmt`, after which `None + 1` raises. */
  lemma {:induction false} ScenarioAsWritten(rec: Recording, fuel: nat)
    requires ScenarioObserved(rec) && fuel >= 1
    ensures FileRun(AsWritten, rec, fuel)
      == Run([Export(Count(1), 0.0, 5.0),
              Export(Count(2), 2.0, 10.0),
              Export(NoneValue, 30.0, 35.0)],
             Raised(TypeError))
  {
    var points := [0.0, 5.0, 30.0, 35.0];
    ScenarioPoints();
    var x1 := Export(Count(1), 0.0, 5.0);
    var x2 := Export(Count(2), 2.0, 10.0);
    var x3 := Export(NoneValue, 30.0, 35.0);
    ScenarioShortPieces(AsWritten, rec, NoneValue, fuel);
    ScenarioShortPieces(AsWritten, rec, Count(1), fuel);
    ScenarioLongMiddle(AsWritten, rec, fuel);
    var r3 := Run([x3], Raised(TypeError));
    WalkStep(AsWritten, rec, points, 2, NoneValue, fuel, r3, r3);
    WalkStep(AsWritten, rec, points, 1, Count(2), fuel, Run([x2], Returned(NoneValue)), r3);
    WalkStep(AsWritten, rec, points, 0, Count(1), fuel, Run([x1], Returned(Count(2))), Run([x2, x3], Raised(TypeError)));
  }

  /** Corrected, the same recording is exported as 0-5 s, 7-15 s and 30-35 s,
      numbered 1 to 3, and the file ends with counter 4. */
  lemma {:induction false} ScenarioCorrected(rec: Recording, fuel: nat)
    requires ScenarioObserved(rec) && fuel >= 1
    ensures FileRun(Corrected, rec, fuel)
      == Run([Export(Count(1), 0.0, 5.0),
              Export(Count(2), 7.0, 15.0),
              Export(Count(3), 30.0, 35.0)],
             Returned(Count(4)))
  {
    var points := [0.0, 5.0, 30.0, 35.0];
    ScenarioPoints();
    var x1 := Export(Count(1), 0.0, 5.0);
    var x2 := Export(Count(2), 7.0, 15.0);
    var x3 := Export(Count(3), 30.0, 35.0);
    ScenarioShortPieces(Corrected, rec, Count(3), fuel);
    ScenarioShortPieces(Corrected, rec, Count(1), fuel);
    ScenarioLongMiddle(Corrected, rec, fuel);
    WalkStep(Corrected, rec, points, 2, Count(3), fuel, Run([x3], Returned(Count(4))), Run([], Returned(Count(4))));
    WalkStep(Corrected, rec, points, 1, Count(2), fuel, Run([x2], Returned(Count(3))), Run([x3], Returned(Count(4))));
    WalkStep(Corrected, rec, points, 0, Count(1), fuel, Run([x1], Returned(Count(2))), Run([x2, x3], Returned(Count(4))));
  }
}
