/** The transcribing splitter of `audio_dataset_manager.py`, the earlier variant of
    the splitter: it cuts a recording at the midpoints of its silences, has each
    piece transcribed by Whisper, and writes the piece under a name that carries
    its number and its sanitised transcript.

    Silence detection and midpoints are the ones of `Silence` (the two files parse
    ffmpeg's output the same way). A source is what this code observes of an
    input file: its duration in milliseconds, ffmpeg's output for the whole file,
    and the text Whisper returns for the clip between two offsets. */
module DatasetManager {
  import opened Python
  import opened Text
  import opened Silence
  import SplitUtils

  // ---------------------------------------------------------------------------
  // Configuration
  // ---------------------------------------------------------------------------

  /** `AudioProcess_Config` of this file: the splitter's fields and the name of
      the Whisper model. */
  datatype Config = Config(
    filepath: string,
    inputFormat: string,
    exportFormat: string,
    outputFolder: string,
    usableFolder: string,
    notUsableFolder: string,
    timeThreshold: real,
    whisperModel: string,
    prefix: string)

  /** `define_process_config(filepath, time_threshold, whisper_model, output_folder, prefix)`:
      the fields of the splitter's configuration, with the prefix replaced by the
      one given when that one is truthy (neither `None` nor empty). */
  function DefineProcessConfig(filepath: string, timeThreshold: real, whisperModel: string,
                               outputFolder: string, prefix: Option<string>): Config
  {
    var base := SplitUtils.DefineProcessConfig(filepath, timeThreshold, outputFolder);
    var chosen := if prefix.Some? && |prefix.value| > 0 then prefix.value else base.prefix;
    Config(filepath, base.inputFormat, base.exportFormat, outputFolder,
           base.usableFolder, base.notUsableFolder, timeThreshold, whisperModel, chosen)
  }

  /** For a path `dir/name.ext`, the formats are `ext` lower-cased, both folders sit
      in the output folder, and the prefix is the one given if it is not empty,
      else `name`. */
  lemma {:induction false} DefineProcessConfigOfPath(dir: string, name: string, ext: string, timeThreshold: real,
                                    whisperModel: string, outputFolder: string, prefix: Option<string>)
    requires '/' !in name && '/' !in ext && '.' !in ext
    ensures var c := DefineProcessConfig(dir + "/" + name + "." + ext, timeThreshold, whisperModel, outputFolder, prefix);
      && c.prefix == (if prefix.Some? && prefix.value != "" then prefix.value else name)
      && c.inputFormat == AsciiLower(ext) && c.exportFormat == AsciiLower(ext)
      && c.usableFolder == PathJoin(outputFolder, "Usable_Audios")
      && c.notUsableFolder == PathJoin(outputFolder, "Not_Usable_Audios")
      && c.whisperModel == whisperModel && c.outputFolder == outputFolder
  {
    SplitUtils.ConfigOfPath(dir, name, ext, timeThreshold, outputFolder);
  }

  /** The same for a bare file name `name.ext`, as a path from the current folder. */
  lemma {:induction false} DefineProcessConfigOfName(name: string, ext: string, timeThreshold: real,
                                    whisperModel: string, outputFolder: string, prefix: Option<string>)
    requires '/' !in name && '/' !in ext && '.' !in ext
    ensures var c := DefineProcessConfig(name + "." + ext, timeThreshold, whisperModel, outputFolder, prefix);
      && c.prefix == (if prefix.Some? && prefix.value != "" then prefix.value else name)
      && c.inputFormat == AsciiLower(ext) && c.exportFormat == AsciiLower(ext)
      && c.usableFolder == PathJoin(outputFolder, "Usable_Audios")
      && c.notUsableFolder == PathJoin(outputFolder, "Not_Usable_Audios")
      && c.whisperModel == whisperModel && c.outputFolder == outputFolder
  {
    SplitUtils.ConfigOfName(name, ext, timeThreshold, outputFolder);
  }

  // ---------------------------------------------------------------------------
  // Transcripts and names
  // ---------------------------------------------------------------------------

  /** The longest transcript kept in a file name. */
  const MaxTranscript: nat := 150

  /** The characters of the class `[ ?!,;."]`. */
  predicate Replaced(c: char)
  {
    c == ' ' || c == '?' || c == '!' || c == ',' || c == ';' || c == '.' || c == '"'
  }

  /** `re.sub(r'[ ?!,;."]', "_", text[:150])`. */
  function Sanitize(text: string): string
  {
    var cut := if |text| <= MaxTranscript then text else text[..MaxTranscript];
    seq(|cut|, i requires 0 <= i < |cut| => if Replaced(cut[i]) then '_' else cut[i])
  }

  /** The first 150 characters are kept, each listed character becomes `_` and
      every other one is unchanged. */
  lemma {:induction false} SanitizeShape(text: string)
    ensures |Sanitize(text)| == if |text| <= MaxTranscript then |text| else MaxTranscript
    ensures forall i :: 0 <= i < |Sanitize(text)| ==>
      Sanitize(text)[i] == if Replaced(text[i]) then '_' else text[i]
  {
  }

  /** No listed character is left, so sanitising twice changes nothing. */
  lemma {:induction false} SanitizeIdempotent(text: string)
    ensures forall i :: 0 <= i < |Sanitize(text)| ==> !Replaced(Sanitize(text)[i])
    ensures Sanitize(Sanitize(text)) == Sanitize(text)
  {
    var once := Sanitize(text);
    SanitizeShape(text);
    SanitizeShape(once);
    assert Sanitize(once) == once;
  }

  /** The path `export_segment` writes for `counter` and `transcription`:
      `output_folder/{prefix}_{str(counter).zfill(4)}_{transcription}.{export_format}`. */
  function ExportPath(cfg: Config, counter: nat, transcription: string): string
  {
    PathJoin(cfg.outputFolder, cfg.prefix + "_" + ZFill(NatToString(counter), 4) + "_" + transcription + "." + cfg.exportFormat)
  }

  /** The name holds the counter zero-padded to at least four digits. */
  lemma {:induction false} ExportPathForm(cfg: Config, counter: nat, transcription: string)
    ensures ExportPath(cfg, counter, transcription)
      == PathJoin(cfg.outputFolder, cfg.prefix + "_" + Padded(counter) + "_" + transcription + "." + cfg.exportFormat)
  {
  }

  /** Two exports share a path exactly when they share the counter and the transcript. */
  lemma {:induction false} ExportPathInjective(cfg: Config, m: nat, n: nat, s: string, t: string)
    ensures ExportPath(cfg, m, s) == ExportPath(cfg, n, t) <==> m == n && s == t
  {
    if ExportPath(cfg, m, s) == ExportPath(cfg, n, t) {
      ExportPathForm(cfg, m, s);
      ExportPathForm(cfg, n, t);
      var head := cfg.prefix + "_";
      var f := cfg.exportFormat;
      Regroup(head + Padded(m) + "_", s, f);
      Regroup(head + Padded(n) + "_", t, f);
      NamesApart(cfg.outputFolder, head, Padded(m), Padded(n), s + "." + f, t + "." + f);
      PaddedInjective(m, n);
      SuffixCancel(s, t, f);
    }
  }

  /** Names `head + digits + "_" + rest` in one folder agree in digits and rest. */
  lemma {:induction false} NamesApart(dir: string, head: string, p: string, q: string, r1: string, r2: string)
    requires |head| > 0 && AllDigits(p) && AllDigits(q)
    requires PathJoin(dir, head + p + "_" + r1) == PathJoin(dir, head + q + "_" + r2)
    ensures p == q && r1 == r2
  {
    var a := head + p + "_" + r1;
    var b := head + q + "_" + r2;
    assert a[0] == head[0] == b[0];
    PathJoinInjective(dir, a, b);
    assert a[|head|..] == p + ['_'] + r1;
    assert b[|head|..] == q + ['_'] + r2;
    DigitsBeforeSeparator(p, q, '_', r1, r2);
  }

  lemma {:induction false} Regroup(x: string, s: string, f: string)
    ensures x + s + "." + f == x + (s + "." + f)
  {
  }

  lemma {:induction false} SuffixCancel(s: string, t: string, f: string)
    requires s + "." + f == t + "." + f
    ensures s == t
  {
    assert |s| == |t|;
    assert s == (s + "." + f)[..|s|];
    assert t == (t + "." + f)[..|t|];
  }

  // ---------------------------------------------------------------------------
  // One source
  // ---------------------------------------------------------------------------

  /** What this code observes of one input file. */
  datatype Source = Source(
    durationMs: nat,                    // `len(AudioSegment.from_file(...))`
    report: string,                     // ffmpeg's output for the whole file
    transcript: (real, real) -> string) // Whisper's `text` for the clip between two offsets

  /** A piece handed to `export_segment`: its counter, the offsets of the slice of
      the recording, and the sanitised transcript in its name. */
  datatype Exported = Exported(number: nat, start: real, end: real, transcription: string)

  /** A file on disk: its path, the slice written there and its transcript. */
  datatype Written = Written(path: string, start: real, end: real, transcription: string)

  function WrittenFile(cfg: Config, x: Exported): Written
  {
    Written(ExportPath(cfg, x.number, x.transcription), x.start, x.end, x.transcription)
  }

  /** The files written, in order, for the pieces of one input file. */
  function WrittenFiles(cfg: Config, xs: seq<Exported>): (r: seq<Written>)
    ensures |r| == |xs|
  {
    seq(|xs|, i requires 0 <= i < |xs| => WrittenFile(cfg, xs[i]))
  }

  /** The files a call writes, in order, and the counter it returns or the
      exception it raises. */
  datatype Step = Step(exports: seq<Exported>, outcome: Result<nat>)

  /** A piece longer than 11 s: `handle_long_segment` passes two arguments to
      `detect_silences`, which takes one, so the call raises. */
  predicate Long(src: Source, start: real, end: real)
  {
    SplitUtils.SegmentLength(src.durationMs, start, end) > SplitUtils.MaxSegmentMs
  }

  /** The piece between `start` and `end`, numbered `counter`, with its transcript. */
  function Piece(src: Source, start: real, end: real, counter: nat): Exported
  {
    Exported(counter, start, end, Sanitize(src.transcript(start, end)))
  }

  /** `split_and_transcribe(start_point, end_point, counter)`. */
  function SplitAndTranscribeRun(src: Source, start: real, end: real, counter: nat): Step
  {
    if Long(src, start, end) then Step([], Err(TypeError))
    else Step([Piece(src, start, end, counter)], Ok(counter + 1))
  }

  /** A piece of at most 11 s is transcribed once and written once, under the
      current counter and its transcript, and the next number is returned; a
      longer one writes nothing and raises `TypeError`. */
  lemma {:induction false} SplitAndTranscribeCases(cfg: Config, src: Source, start: real, end: real, counter: nat)
    ensures var r := SplitAndTranscribeRun(src, start, end, counter);
      && (!Long(src, start, end) ==>
            && WrittenFiles(cfg, r.exports)
               == [Written(ExportPath(cfg, counter, Sanitize(src.transcript(start, end))), start, end,
                           Sanitize(src.transcript(start, end)))]
            && r.outcome == Ok(counter + 1))
      && (Long(src, start, end) ==> r.exports == [] && r.outcome == Err(TypeError))
  {
    var r := SplitAndTranscribeRun(src, start, end, counter);
    if !Long(src, start, end) {
      assert WrittenFiles(cfg, r.exports)[0] == WrittenFile(cfg, Piece(src, start, end, counter));
    }
  }

  /** The pieces between consecutive points from index `i` on, counted from
      `counter`; a raise ends the walk. */
  function WalkFrom(src: Source, points: seq<real>, i: nat, counter: nat): Step
    decreases |points| - i
  {
    if i + 1 >= |points| then Step([], Ok(counter))
    else
      var r := SplitAndTranscribeRun(src, points[i], points[i + 1], counter);
      if r.outcome.Err? then r
      else Then(r.exports, WalkFrom(src, points, i + 1, r.outcome.value))
  }

  /** A step preceded by exports already written. */
  function Then(done: seq<Exported>, r: Step): Step
  {
    Step(done + r.exports, r.outcome)
  }

  lemma {:induction false} ThenThen(a: seq<Exported>, b: seq<Exported>, r: Step)
    ensures Then(a, Then(b, r)) == Then(a + b, r)
  {
    assert a + (b + r.exports) == (a + b) + r.exports;
  }

  /** What `main` does with one file: counter 1, then the pieces between 0 and the
      first midpoint and between consecutive midpoints. An empty list is falsy and
      skipped; the string saying no silence was found is truthy, so as written
      `extract_midpoints` tries to unpack its characters. */
  function FileRun(v: SplitUtils.Variant, src: Source): Step
  {
    match ParseSilences(src.report)
    case Failed(e) => Step([], Err(e))
    case NoSilence => if v.AsWritten? then Step([], Err(ValueError)) else Step([], Ok(1))
    case Silences(pairs) =>
      if |pairs| == 0 then Step([], Ok(1))
      else WalkFrom(src, [0.0] + Midpoints(pairs), 0, 1)
  }

  // ---------------------------------------------------------------------------
  // Reference: the walk in closed form
  // ---------------------------------------------------------------------------

  /** The index of the first piece from `i` on that is longer than 11 s, or the
      index past the last piece when there is none. */
  function FirstLong(src: Source, points: seq<real>, i: nat): (k: nat)
    ensures i <= k
    ensures forall j :: i <= j < k && j + 1 < |points| ==> !Long(src, points[j], points[j + 1])
    ensures k + 1 < |points| ==> Long(src, points[k], points[k + 1])
    ensures k + 1 >= |points| ==> k == (if i + 1 >= |points| then i else |points| - 1)
    decreases |points| - i
  {
    if i + 1 >= |points| then i
    else if Long(src, points[i], points[i + 1]) then i
    else FirstLong(src, points, i + 1)
  }

  /** `xs` are the pieces from cut point `i` on, in order, the `j`-th spanning
      points `i + j` to `i + j + 1` and numbered `counter + j`. */
  predicate PiecesFrom(src: Source, points: seq<real>, i: nat, counter: nat, xs: seq<Exported>)
  {
    && (|xs| > 0 ==> i + |xs| < |points|)
    && forall j :: 0 <= j < |xs| ==> xs[j] == Piece(src, points[i + j], points[i + j + 1], counter + j)
  }

  /** The walk writes, in order, the pieces from point `i` up to the first long
      one, numbered from `counter`; then it raises `TypeError` at the long piece,
      or returns the next number when there is none. */
  lemma {:induction false} WalkShape(src: Source, points: seq<real>, i: nat, counter: nat)
    ensures var r := WalkFrom(src, points, i, counter);
      var k := FirstLong(src, points, i);
      && |r.exports| == k - i
      && PiecesFrom(src, points, i, counter, r.exports)
      && r.outcome == (if k + 1 < |points| then Err(TypeError) else Ok(counter + (k - i)))
    decreases |points| - i
  {
    if i + 1 < |points| && !Long(src, points[i], points[i + 1]) {
      WalkShape(src, points, i + 1, counter + 1);
      WalkStepShape(src, points, i, counter, WalkFrom(src, points, i + 1, counter + 1));
    }
  }

  /** One short piece in front of the rest of the walk. */
  lemma {:induction false} WalkStepShape(src: Source, points: seq<real>, i: nat, counter: nat, rest: Step)
    requires i + 1 < |points| && !Long(src, points[i], points[i + 1])
    requires rest == WalkFrom(src, points, i + 1, counter + 1)
    requires PiecesFrom(src, points, i + 1, counter + 1, rest.exports)
    ensures WalkFrom(src, points, i, counter) == Then([Piece(src, points[i], points[i + 1], counter)], rest)
    ensures PiecesFrom(src, points, i, counter, WalkFrom(src, points, i, counter).exports)
  {
    var first := Piece(src, points[i], points[i + 1], counter);
    var xs := [first] + rest.exports;
    assert WalkFrom(src, points, i, counter).exports == xs;
    forall j | 0 <= j < |xs| ensures xs[j] == Piece(src, points[i + j], points[i + j + 1], counter + j) {
      if j > 0 {
        assert xs[j] == rest.exports[j - 1];
      }
    }
  }

  /** For a file with silences, piece `j` spans from cut point `j` to cut point
      `j + 1`, where the cut points are 0 and then the midpoints: the pieces are
      adjacent, start at 0, are numbered from 1, and nothing after the last
      midpoint is written. All of them are written when none is longer than 11 s. */
  lemma {:induction false} FilePieces(v: SplitUtils.Variant, src: Source)
    requires ParseSilences(src.report).Silences? && |ParseSilences(src.report).pairs| > 0
    ensures var points := [0.0] + Midpoints(ParseSilences(src.report).pairs);
      var r := FileRun(v, src);
      && PiecesFrom(src, points, 0, 1, r.exports)
      && (r.outcome.Ok? <==> |r.exports| == |points| - 1)
      && (r.outcome.Ok? ==> r.outcome.value == |points|)
      && (r.outcome.Err? ==> r.outcome.error == TypeError)
  {
    var points := [0.0] + Midpoints(ParseSilences(src.report).pairs);
    WalkShape(src, points, 0, 1);
  }

  /** No two files written for one input file share a path. */
  lemma {:induction false} FilePathsDistinct(v: SplitUtils.Variant, cfg: Config, src: Source)
    ensures var w := WrittenFiles(cfg, FileRun(v, src).exports);
      forall i, j :: 0 <= i < j < |w| ==> w[i].path != w[j].path
  {
    var xs := FileRun(v, src).exports;
    var d := ParseSilences(src.report);
    if d.Silences? && |d.pairs| > 0 {
      FilePieces(v, src);
      var points := [0.0] + Midpoints(d.pairs);
      forall j | 0 <= j < |xs| ensures xs[j].number == 1 + j {
        assert xs[j] == Piece(src, points[j], points[j + 1], 1 + j);
      }
    }
    NumberedPathsDistinct(cfg, xs, 1);
  }

  /** Pieces numbered consecutively are written to pairwise different paths. */
  lemma {:induction false} NumberedPathsDistinct(cfg: Config, xs: seq<Exported>, n: nat)
    requires forall j :: 0 <= j < |xs| ==> xs[j].number == n + j
    ensures var w := WrittenFiles(cfg, xs);
      forall i, j :: 0 <= i < j < |w| ==> w[i].path != w[j].path
  {
    var w := WrittenFiles(cfg, xs);
    forall i, j | 0 <= i < j < |w| ensures w[i].path != w[j].path {
      assert w[i] == WrittenFile(cfg, xs[i]) && w[j] == WrittenFile(cfg, xs[j]);
      NumbersApart(cfg, xs[i], xs[j]);
    }
  }

  lemma {:induction false} NumbersApart(cfg: Config, x: Exported, y: Exported)
    requires x.number != y.number
    ensures WrittenFile(cfg, x).path != WrittenFile(cfg, y).path
  {
    ExportPathInjective(cfg, x.number, y.number, x.transcription, y.transcription);
  }

  // ---------------------------------------------------------------------------
  // The whole run
  // ---------------------------------------------------------------------------

  /** The files `main` writes, in order, and the exception that ended it, if any. */
  datatype Session = Session(files: seq<Written>, error: Option<PyError>)

  /** A session preceded by files already written. */
  function Continued(done: seq<Written>, s: Session): Session
  {
    Session(done + s.files, s.error)
  }

  lemma {:induction false} ContinuedContinued(a: seq<Written>, b: seq<Written>, s: Session)
    ensures Continued(a, Continued(b, s)) == Continued(a + b, s)
  {
    assert a + (b + s.files) == (a + b) + s.files;
  }

  /** `main(files, time_threshold, whisper_model, output_folder, prefix)`, where
      `open` gives the source behind each path. A raise ends the whole run. */
  function ProcessFilesRun(v: SplitUtils.Variant, files: seq<string>, timeThreshold: real, whisperModel: string,
                   outputFolder: string, prefix: Option<string>, open: string -> Source): Session
    decreases |files|
  {
    if |files| == 0 then Session([], None)
    else
      var r := FileRun(v, open(files[0]));
      var written := WrittenFiles(DefineProcessConfig(files[0], timeThreshold, whisperModel, outputFolder, prefix), r.exports);
      if r.outcome.Err? then Session(written, Some(r.outcome.error))
      else Continued(written, ProcessFilesRun(v, files[1..], timeThreshold, whisperModel, outputFolder, prefix, open))
  }

  /** As written, a first file without any silence ends the run with
      `ValueError` before anything is written. */
  lemma {:induction false} AsWrittenNoSilenceAborts(files: seq<string>, timeThreshold: real, whisperModel: string,
                                   outputFolder: string, prefix: Option<string>, open: string -> Source)
    requires |files| > 0 && Find(open(files[0]).report, Marker).None?
    ensures ProcessFilesRun(SplitUtils.AsWritten, files, timeThreshold, whisperModel, outputFolder, prefix, open)
      == Session([], Some(ValueError))
  {
    ParseSilencesCases(open(files[0]).report);
  }

  /** Corrected, a file without any silence is skipped, as an empty list is. */
  lemma {:induction false} CorrectedNoSilenceSkips(files: seq<string>, timeThreshold: real, whisperModel: string,
                                  outputFolder: string, prefix: Option<string>, open: string -> Source)
    requires |files| > 0 && Find(open(files[0]).report, Marker).None?
    ensures ProcessFilesRun(SplitUtils.Corrected, files, timeThreshold, whisperModel, outputFolder, prefix, open)
      == ProcessFilesRun(SplitUtils.Corrected, files[1..], timeThreshold, whisperModel, outputFolder, prefix, open)
  {
    ParseSilencesCases(open(files[0]).report);
    var rest := ProcessFilesRun(SplitUtils.Corrected, files[1..], timeThreshold, whisperModel, outputFolder, prefix, open);
    assert [] + rest.files == rest.files;
  }

  // ---------------------------------------------------------------------------
  // The methods
  // ---------------------------------------------------------------------------

  /** `AudioProcessor.split_and_transcribe`. The local dictionary of transcripts
      is never returned, so it is not kept. */
  method SplitAndTranscribe(src: Source, startPoint: real, endPoint: real, counter: nat) returns (r: Step)
    ensures r == SplitAndTranscribeRun(src, startPoint, endPoint, counter)
  {
    var segmentLength := SplitUtils.SegmentLength(src.durationMs, startPoint, endPoint);
    if segmentLength > SplitUtils.MaxSegmentMs {
      return Step([], Err(TypeError));
    }
    var transcription := Sanitize(src.transcript(startPoint, endPoint));
    var segment := Exported(counter, startPoint, endPoint, transcription);
    return Step([segment], Ok(counter + 1));
  }

  /** The body of `main`'s loop for one file: detect, take midpoints, and split
      and transcribe from 0 to each midpoint in turn. */
  method ProcessFile(v: SplitUtils.Variant, ap: Source) returns (r: Step)
    ensures r == FileRun(v, ap)
  {
    var counter := 1;
    var silenceList := DetectSilences(ap.report);
    if silenceList.Failed? {
      return Step([], Err(silenceList.error));
    }
    if silenceList.NoSilence? {
      if v.AsWritten? {
        return Step([], Err(ValueError));
      }
      return Step([], Ok(counter));
    }
    if |silenceList.pairs| == 0 {
      return Step([], Ok(counter));
    }
    var midpoints := Midpoints(silenceList.pairs);
    r := TranscribeFromStart(ap, midpoints);
  }

  /** The loop of `main` over the midpoints of one file: split and transcribe
      from 0 to the first midpoint, then from each midpoint to the next. */
  method TranscribeFromStart(ap: Source, midpoints: seq<real>) returns (r: Step)
    ensures r == WalkFrom(ap, [0.0] + midpoints, 0, 1)
  {
    var counter := 1;
    ghost var points := [0.0] + midpoints;
    ghost var whole := WalkFrom(ap, points, 0, counter);
    var exports: seq<Exported> := [];
    assert whole == Then(exports, whole);
    var startPoint := 0.0;
    var j := 0;
    while j < |midpoints|
      invariant 0 <= j <= |midpoints| && startPoint == points[j]
      invariant Then(exports, WalkFrom(ap, points, j, counter)) == whole
    {
      var endPoint := midpoints[j];
      assert endPoint == points[j + 1];
      var step := SplitAndTranscribe(ap, startPoint, endPoint, counter);
      if step.outcome.Err? {
        return Step(exports + step.exports, step.outcome);
      }
      ThenThen(exports, step.exports, WalkFrom(ap, points, j + 1, step.outcome.value));
      exports := exports + step.exports;
      counter := step.outcome.value;
      startPoint := endPoint;
      j := j + 1;
    }
    return Step(exports, Ok(counter));
  }

  /** `main(files, time_threshold, whisper_model, output_folder, prefix)`. */
  method ProcessFiles(v: SplitUtils.Variant, files: seq<string>, timeThreshold: real, whisperModel: string,
              outputFolder: string, prefix: Option<string>, open: string -> Source)
    returns (s: Session)
    ensures s == ProcessFilesRun(v, files, timeThreshold, whisperModel, outputFolder, prefix, open)
  {
    ghost var whole := ProcessFilesRun(v, files, timeThreshold, whisperModel, outputFolder, prefix, open);
    var written: seq<Written> := [];
    var remaining := files;
    assert whole == Continued(written, whole);
    while |remaining| > 0
      invariant whole == Continued(written, ProcessFilesRun(v, remaining, timeThreshold, whisperModel, outputFolder, prefix, open))
    {
      var file := remaining[0];
      var processConfig := DefineProcessConfig(file, timeThreshold, whisperModel, outputFolder, prefix);
      var ap := open(file);
      var fileRun := ProcessFile(v, ap);
      var fileWritten := WrittenFiles(processConfig, fileRun.exports);
      ProcessFilesStep(v, remaining, timeThreshold, whisperModel, outputFolder, prefix, open, written, fileRun, fileWritten);
      if fileRun.outcome.Err? {
        return Session(written + fileWritten, Some(fileRun.outcome.error));
      }
      written := written + fileWritten;
      remaining := remaining[1..];
    }
    return Session(written, None);
  }

  /** One file of `main`: after `r`, the run of the first file, which writes `w`,
      the session goes on with the other files or ends. */
  lemma {:induction false} ProcessFilesStep(v: SplitUtils.Variant, files: seq<string>, timeThreshold: real, whisperModel: string,
                   outputFolder: string, prefix: Option<string>, open: string -> Source,
                   done: seq<Written>, r: Step, w: seq<Written>)
    requires |files| > 0
    requires r == FileRun(v, open(files[0]))
    requires w == WrittenFiles(DefineProcessConfig(files[0], timeThreshold, whisperModel, outputFolder, prefix), r.exports)
    ensures r.outcome.Err? ==>
      Continued(done, ProcessFilesRun(v, files, timeThreshold, whisperModel, outputFolder, prefix, open))
      == Session(done + w, Some(r.outcome.error))
    ensures r.outcome.Ok? ==>
      Continued(done, ProcessFilesRun(v, files, timeThreshold, whisperModel, outputFolder, prefix, open))
      == Continued(done + w, ProcessFilesRun(v, files[1..], timeThreshold, whisperModel, outputFolder, prefix, open))
  {
    if r.outcome.Ok? {
      ContinuedContinued(done, w, ProcessFilesRun(v, files[1..], timeThreshold, whisperModel, outputFolder, prefix, open));
    }
  }
}
