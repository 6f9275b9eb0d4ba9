# audio-dataset-manager, modelled in Dafny

This project models the logic at the heart of audio-dataset-manager, a set of
tools that turn long recordings into a speech dataset. It covers three things.

- **The silence splitter** (`src/split_utils.py`). It reads the report of
  ffmpeg's `silencedetect` filter, cuts each recording at the midpoints of its
  silences, and cuts again any piece longer than 11 seconds. Each piece is
  written as `{prefix}_{counter:04}.{format}`, with a counter threaded through
  the recursion.
- **The earlier transcribing variant** (`src/audio_dataset_manager.py`). It
  cuts at the same midpoints, but any piece longer than 11 seconds raises
  `TypeError`. It has Whisper transcribe each piece, and writes
  `{prefix}_{counter:04}_{transcript}.{format}`. The transcript in the name is
  cut to 150 characters and its punctuation replaced by `_`.
- **The catalogue viewer's state** (`src/check_json_utils.py`,
  `AudioJsonHandler`). It holds one loaded JSON dictionary from clip name to
  record. It shows one clip at a time by index or page, and edits the `text`
  field of one record in place.

Files:

| file | module | what it holds |
|---|---|---|
| `python.dfy` | `Python` | `Option`, `Result` and the Python exceptions the code can raise |
| `text.dfy` | `Text` | the `str` and POSIX `os.path` operations the code uses: `find`, `split`, `join`, `rfind`, `lower`, `endswith`, `zfill`, `str(int)`, `basename`, `join` of paths |
| `silence.dfy` | `Silence` | parsing the `silencedetect` report, and `extract_midpoints`; both splitters share this code |
| `splitter.dfy` | `SplitUtils` | `split_utils.py`: configuration, export names, `split_audio`, `handle_long_segment`, `split_main` |
| `dataset.dfy` | `DatasetManager` | `audio_dataset_manager.py`: configuration with an optional prefix, transcript sanitising, export names with transcripts, `split_and_transcribe`, `main` |
| `catalog.dfy` | `Catalog` | `check_json_utils.py`: the class `AudioJsonHandler` and the dictionary it holds |

How the model treats the outside world:

- **ffmpeg.** Its output is a string. `Silence.ParseSilences` reads it and
  `Silence.DetectSilences` computes it with the source's append loop.
  `Silence.Detection` has three cases:
  - `NoSilence`: the sentinel string `'No silence was detected'`;
  - `Silences(pairs)`: the list of pairs;
  - `Failed(IndexError)`: a fragment without `]` makes `split(']')[1]` raise.
- **The audio.** A recording is its duration in milliseconds, ffmpeg's report
  for the whole file, and (for the splitter) a function giving ffmpeg's report
  for the clip between two offsets. For the transcribing variant it is instead
  a function giving Whisper's text for that clip.
- **The length of a slice.** `len(audio[start*1000:end*1000])` is
  `max(0, min(end*1000, duration) - start*1000)` (`SplitUtils.SegmentLength`).
- **Exceptions.** They are values: `Python.PyError`, carried in `Run.outcome`,
  `Step.outcome`, `Batch.ending` and `Session.error`.
- **Files written.** They are the value these runs return: each written file
  with its path and the slice of the recording it holds.
- **The two splitters' records.** `Written`, `WrittenFile`, `WrittenFiles`,
  `Then` and `Continued` are declared once in `SplitUtils` and once in
  `DatasetManager`. Their shapes are the same, but the records differ: a file of
  the transcribing variant also carries its transcript.
- **Termination.** `split_audio` and `handle_long_segment` recurse with no
  bound except what ffmpeg reports. The model gives them a `fuel` count, and a
  run that uses it up ends in `OutOfFuel`.

The splitter comes in two variants, `SplitUtils.Variant`:

- `AsWritten` is the code as it stands.
- `Corrected` fixes the faults listed under Findings.

The transcribing variant uses the same switch for its one fault shared with the
splitter.

Where the code behaves differently than its comments or names suggest, the
model follows the code:

- **Nothing after the last midpoint is exported.** Both loops cut from 0 to the
  first midpoint, then from each midpoint to the next. Likewise, when
  `handle_long_segment` of `split_utils.py` cuts a long piece, it exports
  nothing before the piece's first midpoint and nothing after its last one.
- **The sentinel string is truthy.** When ffmpeg finds no silence,
  `detect_silences` returns a string, and `if silence_list := ...` treats it as
  a list. `extract_midpoints` then unpacks its first character into
  `start, end`, which raises `ValueError`.
- **The long branch of `audio_dataset_manager.py` always raises.**
  `handle_long_segment` calls `detect_silences(segment_path, "-23dB")`, but that
  method takes one argument, so the call raises `TypeError` before anything is
  exported. The model raises `TypeError` for every piece longer than
  11 seconds.
- **`change_audio` looks the text up under the key's basename.** It shows the
  key at `index`, but reads `json_data[os.path.basename(key)]['text']`. For a
  key that holds a `/`, that is another record's text, or a `KeyError`. A
  record without a `text` field also raises `KeyError`. The properties of the
  view below hold for keys without `/` whose record has `text`.
- **The "all tuples" test in `handle_long_segment` of `split_utils.py` always
  passes.** A parsed list holds only pairs, so only the string and empty-list
  cases matter.

## Model

| member | source | states |
|---|---|---|
| Text.Split | src/split_utils.py:39 | `s.split(sep)` has at least one piece, and exactly one when `sep` does not occur |
| Text.SplitJoins | src/split_utils.py:39 | joining the pieces with the separator gives back the string |
| Text.SplitPiecesFree | src/split_utils.py:39 | no piece holds the separator |
| Text.SplitJoinWith | src/split_utils.py:39 | splitting a join of pieces that cannot start the separator gives back the pieces |
| Text.FindFromSound | src/split_utils.py:39 | `find` gives the first occurrence at or after the start index, and none only when none exists |
| Text.AfterLast | src/split_utils.py:142 | `split('.')[-1]` holds no `.`, is a suffix of the string, and is the whole string when there is no `.` |
| Text.BeforeLast | src/split_utils.py:143 | `rsplit('.', 1)[0]`, the separator and the last piece concatenate back to the string |
| Text.Basename | src/check_json_utils.py:46 | `os.path.basename` holds no `/` and is the path itself when the path has none |
| Text.BasenameOfJoin | src/check_json_utils.py:46-47 | the basename of `folder/name` is `name` |
| Text.PathJoin | src/split_utils.py:89 | definition of POSIX `os.path.join` of two parts; its properties are in Text.BasenameOfJoin and Text.PathJoinInjective |
| Text.PathJoinInjective | src/split_utils.py:89 | joining one folder with two names that start alike gives equal paths only for equal names |
| Text.AsciiLower | src/split_utils.py:142 | definition of `lower()` on ASCII letters; its properties are in Text.AsciiLowerIdempotent |
| Text.AsciiLowerIdempotent | src/split_utils.py:142 | after `lower()` no capital is left, and lowering again changes nothing |
| Text.NatToString | src/split_utils.py:88 | `str(n)` is a non-empty digit string denoting `n`, with no leading zero unless `n` is 0 |
| Text.ZFill | src/split_utils.py:88 | `zfill(w)` left-pads with `0` to `w` characters and leaves a longer string unchanged |
| Text.Padded | src/split_utils.py:88 | `str(n).zfill(4)` is a digit string denoting `n`, of length 4 whenever `n < 10000` |
| Text.PaddedInjective | src/split_utils.py:88 | two counters have the same padded form exactly when they are equal |
| Text.LeadingZerosValue | src/split_utils.py:88 | zeros in front of a digit string do not change its value |
| Silence.ParseSilences | src/split_utils.py:37-58 | definition of `detect_silences` from the decoded output on; its properties are in Silence.ParseSilencesCases, Silence.ParseReport and Silence.DetectSilences |
| Silence.FirstNumber | src/split_utils.py:49 | definition of `float(re.findall(...)[0])` as a left-to-right scan; its properties are in Silence.FirstNumberNone, Silence.FirstNumberSkipsInert and Silence.FirstNumberOfSeconds |
| Silence.DetectSilences | src/split_utils.py:37-58 | the append loop over the fragments computes `ParseSilences` of ffmpeg's output |
| Silence.ParseSilencesCases | src/split_utils.py:39-48 | the sentinel comes back exactly when the marker is absent; it raises exactly when some fragment after a marker has no `]`, and then it raises `IndexError` |
| Silence.FirstNumberNone | src/split_utils.py:49 | `re.findall` of the number pattern is empty exactly when the text holds no digit |
| Silence.FirstNumberSkipsInert | src/split_utils.py:49 | text with no digit, sign or point in front of a number does not change the first number found |
| Silence.FirstNumberOfSeconds | src/split_utils.py:49-50 | a time printed with three decimals, followed by any non-digit text, is read back as that time: only the first number counts |
| Silence.DecimalAtUnsigned | src/split_utils.py:49 | the left alternative `[-+]?\d*\.\d+` matches a whole unsigned decimal |
| Silence.CollectAllNumbered | src/split_utils.py:47-56 | when every fragment has a number, start `i` is the time of fragment `2i+1` and end `i` that of fragment `2i+2`, giving `ceil(n/2)` starts and `floor(n/2)` ends |
| Silence.CollectDependsOnOwnParity | src/split_utils.py:47-56 | a fragment only feeds the list of its own parity, and a fragment without a number still uses up its position |
| Silence.DetectStep | src/split_utils.py:47-56 | one turn of the loop appends the fragment's time to the starts at an odd position and to the ends at an even one, and only when it has a number |
| Silence.TimesSnoc | src/split_utils.py:48-50 | one more fragment adds its time at the end of the list of times |
| Silence.Zip | src/split_utils.py:58 | definition of `list(zip(starts, ends))`; its properties are in Silence.ZipCollectPairs and Silence.ParseFragments |
| Silence.SplitReport | src/split_utils.py:39 | for leading text that holds no `[`, splitting a report on the marker separates that text from the silence lines |
| Silence.FragmentTimeOf | src/split_utils.py:48-50 | a fragment `address]text`, where neither `address` nor `text` holds a `]`, contributes the first number of `text` |
| Silence.LineTimes | src/split_utils.py:48-56 | both lines ffmpeg prints for one silence give its start and its end |
| Silence.ZipCollectPairs | src/split_utils.py:47-58 | times that come in start/end pairs zip back into those pairs |
| Silence.ParseFragments | src/split_utils.py:39-58 | output whose fragments come in numbered start/end pairs parses to those pairs |
| Silence.ParseLines | src/split_utils.py:39-58 | when the leading text holds no `[`, a report of lines that read as given pairs parses to those pairs, or to the sentinel for no lines |
| Silence.SecondsLineReads | src/split_utils.py:49-50 | a line printed from millisecond times reads as those times in seconds |
| Silence.ParseReport | src/split_utils.py:37-58 | round trip: a report made of leading text that holds no `[`, followed by ffmpeg's silence lines, parses back to exactly those silences in seconds, in order, and to the sentinel when it lists none |
| Silence.RenderReads | src/split_utils.py:49-50 | every rendered line reads as its silence in seconds |
| Silence.Midpoints | src/split_utils.py:60-62 | one midpoint per silence, in order, lying in `[s, e]` when `s <= e` and in `(s, e)` when `s < e` |
| Silence.MidpointsIncrease | src/split_utils.py:60-62 | silences that follow one another without overlap give strictly increasing midpoints |
| SplitUtils.DefineProcessConfig | src/split_utils.py:139-156 | path, folder and threshold are kept; the format has no `.` and is the lowered path when the path has no `.`; the export format is the input format; the prefix has no `/` |
| SplitUtils.ConfigOfPath | src/split_utils.py:139-156 | for `dir/name.ext`: the prefix is `name` (inner dots kept), both formats are `ext` lowered, and the two folders are `Usable_Audios` and `Not_Usable_Audios` inside the output folder |
| SplitUtils.ConfigOfName | src/split_utils.py:139-156 | the same for a bare `name.ext` with no folder |
| SplitUtils.ExportPath | src/split_utils.py:86-89 | definition of the path `export_segment` writes; its properties are in SplitUtils.ExportPathForms and SplitUtils.ExportPathInjective |
| SplitUtils.ExportPathForms | src/split_utils.py:86-89 | the name is `{prefix}_{zfill(counter,4)}.{fmt}` in the output folder, and `{prefix}_None.{fmt}` for a `None` counter |
| SplitUtils.ExportPathInjective | src/split_utils.py:86-89 | two counters give the same path exactly when they are equal |
| SplitUtils.SegmentLength | src/split_utils.py:64-76 | a slice's length is never negative, at most the requested span, exactly the span when inside the recording, and 0 when it starts past the end |
| SplitUtils.Bump | src/split_utils.py:104 | definition of `counter += 1` on an int or `None`; its properties are in SplitUtils.ShortPieceExported and SplitUtils.CorrectedSplitAudioCounted |
| SplitUtils.CutPoints | src/split_utils.py:121-125 | definition of the offsets at which a clip is cut; its properties are in SplitUtils.CutPointsWithin, SplitUtils.CorrectedSplitAudioInside and SplitUtils.ScenarioLongPiece |
| SplitUtils.CutPointsWithin | src/split_utils.py:108-124 | when a clip's silences lie within `[0, end - start]`, the corrected cut points lie within `[start, end]`, while the points as written lie within `[0, end - start]` of the whole recording |
| SplitUtils.SplitAudioRun | src/split_utils.py:95-106 | definition of `split_audio`; its properties are in SplitUtils.ShortPieceExported, SplitUtils.SplitAudioShort, SplitUtils.CorrectedSplitAudioCounted and SplitUtils.CorrectedSplitAudioInside |
| SplitUtils.HandleLongRun | src/split_utils.py:108-125 | definition of `handle_long_segment`; its properties are in SplitUtils.LongPieceWithoutSilence, SplitUtils.ScenarioLongPiece, SplitUtils.CorrectedHandleLongCounted and SplitUtils.CorrectedHandleLongInside |
| SplitUtils.FileRun | src/split_utils.py:161-182 | definition of one pass of `split_main`'s loop; its properties are in SplitUtils.ShortFile, SplitUtils.FileShort, SplitUtils.CorrectedFileNumbering and SplitUtils.CorrectedFileInside |
| SplitUtils.SplitMainRun | src/split_utils.py:159-184 | definition of `split_main`; its properties are in SplitUtils.SplitMainStep, SplitUtils.AsWrittenNoSilenceAborts and SplitUtils.CorrectedNoSilenceSkips |
| SplitUtils.SplitAudio | src/split_utils.py:95-106 | `split_audio` computes `SplitAudioRun` |
| SplitUtils.HandleLongSegment | src/split_utils.py:108-125 | `handle_long_segment`, with its loop over consecutive midpoints, computes `HandleLongRun` |
| SplitUtils.SplitMain | src/split_utils.py:159-184 | the loop over the input files computes `SplitMainRun` |
| SplitUtils.SplitFile | src/split_utils.py:160-177 | one pass of the loop either ends the batch with the file's error or goes on with the other files after this file's writes |
| SplitUtils.SplitMainStep | src/split_utils.py:160-177 | a batch is the first file's writes followed by the batch of the other files, or ends where that file raised |
| SplitUtils.ProcessFile | src/split_utils.py:161-182 | the loop body for one file computes `FileRun` |
| SplitUtils.SplitFromStart | src/split_utils.py:168-177 | the loop over the midpoints, starting at 0 with counter 1, computes the walk over `[0] + midpoints` |
| SplitUtils.ShortPieceExported | src/split_utils.py:95-106 | a piece of at most 11000 ms is written as exactly one file named after the counter, and `counter + 1` is returned; with a `None` counter the file is written and then `TypeError` is raised |
| SplitUtils.LongPieceWithoutSilence | src/split_utils.py:108-118 | a long piece whose clip gives the sentinel or an empty list exports nothing and returns the counter unchanged |
| SplitUtils.SplitAudioShort | src/split_utils.py:95-125 | no exported piece is longer than 11000 ms: the long piece itself is never exported |
| SplitUtils.FileShort | src/split_utils.py:168-177 | no piece written for a file is longer than 11000 ms |
| SplitUtils.ShortWalk | src/split_utils.py:175-177 | when no piece is long, the pieces between consecutive points are exported in order, numbered from the counter, and the next number is returned |
| SplitUtils.ShortFile | src/split_utils.py:168-177 | when no piece is long, a file is exported as `[0,m1], [m1,m2], ..., [m(k-1),mk]`, numbered 1 to k, adjacent, and nothing after the last midpoint |
| SplitUtils.CorrectedSplitAudioCounted | src/split_utils.py:95-125 | with the counter returned, `split_audio` numbers its pieces consecutively from the counter it is given and returns the next number |
| SplitUtils.CorrectedFileNumbering | src/split_utils.py:168-177 | corrected, the pieces of a file are numbered 1, 2, ... and no two share a path |
| SplitUtils.NumberedPathsDistinct | src/split_utils.py:86-89 | pieces numbered consecutively are written to pairwise different paths |
| SplitUtils.CorrectedSplitAudioInside | src/split_utils.py:95-125 | with the cut points shifted, every piece lies inside the piece it was cut from |
| SplitUtils.CorrectedFileInside | src/split_utils.py:168-177 | corrected, every piece of a file lies inside the recording when ffmpeg's silences do |
| SplitUtils.AsWrittenNoSilenceAborts | src/split_utils.py:170-171 | as written, a first file without silence makes `split_main` raise `ValueError` before anything is written |
| SplitUtils.CorrectedNoSilenceSkips | src/split_utils.py:170-182 | corrected, such a file is skipped and the batch goes on with the next one |
| SplitUtils.ScenarioLongPiece | src/split_utils.py:108-125 | in the example, the long piece 5-30 s is cut as written at 2-10 s with `None` returned, and corrected at 7-15 s with 3 returned |
| SplitUtils.ScenarioAsWritten | src/split_utils.py:95-125 | as written, the example recording gives pieces 0-5 s (number 1), 2-10 s (number 2) and 30-35 s (named `None`), then raises `TypeError` |
| SplitUtils.ScenarioCorrected | src/split_utils.py:95-125 | corrected, the same recording gives pieces 0-5 s, 7-15 s and 30-35 s, numbered 1 to 3, ending with counter 4 |
| DatasetManager.DefineProcessConfig | src/audio_dataset_manager.py:133-154 | definition of `define_process_config` with an optional prefix; its properties are in DatasetManager.DefineProcessConfigOfPath |
| DatasetManager.Sanitize | src/audio_dataset_manager.py:85 | definition of the `re.sub` on the first 150 characters; its properties are in DatasetManager.SanitizeShape and DatasetManager.SanitizeIdempotent |
| DatasetManager.ExportPath | src/audio_dataset_manager.py:88-91 | definition of the path `export_segment` writes; its properties are in DatasetManager.ExportPathForm and DatasetManager.ExportPathInjective |
| DatasetManager.SplitAndTranscribeRun | src/audio_dataset_manager.py:97-117 | definition of `split_and_transcribe`; its properties are in DatasetManager.SplitAndTranscribeCases |
| DatasetManager.FileRun | src/audio_dataset_manager.py:159-180 | definition of one pass of `main`'s loop; its properties are in DatasetManager.FilePieces and DatasetManager.FilePathsDistinct |
| DatasetManager.ProcessFilesRun | src/audio_dataset_manager.py:157-182 | definition of `main`; its properties are in DatasetManager.ProcessFilesStep, DatasetManager.AsWrittenNoSilenceAborts and DatasetManager.CorrectedNoSilenceSkips |
| DatasetManager.DefineProcessConfigOfPath | src/audio_dataset_manager.py:133-154 | for `dir/name.ext`: the prefix is the given one if it is non-empty, else `name`; both formats are `ext` lowered; the folders and the model name are set |
| DatasetManager.DefineProcessConfigOfName | src/audio_dataset_manager.py:133-154 | the same for a bare `name.ext` with no folder |
| DatasetManager.SanitizeShape | src/audio_dataset_manager.py:85 | the output is as long as `min(150, len(text))`, each listed character becomes `_`, and every other one is unchanged |
| DatasetManager.SanitizeIdempotent | src/audio_dataset_manager.py:85 | no listed character is left, and sanitising twice gives the same result as once |
| DatasetManager.ExportPathForm | src/audio_dataset_manager.py:88-91 | the name is `{prefix}_{zfill(counter,4)}_{transcription}.{fmt}` in the output folder |
| DatasetManager.ExportPathInjective | src/audio_dataset_manager.py:88-91 | two exports share a path exactly when they share counter and transcript |
| DatasetManager.SplitAndTranscribeCases | src/audio_dataset_manager.py:97-117 | a short piece is transcribed once, written once under the counter and its sanitised transcript, and `counter + 1` is returned; a long one writes nothing and raises `TypeError` |
| DatasetManager.SplitAndTranscribe | src/audio_dataset_manager.py:97-110 | `split_and_transcribe` computes `SplitAndTranscribeRun` |
| DatasetManager.FirstLong | src/audio_dataset_manager.py:173-175 | the first piece from a point on that is longer than 11000 ms, or the end of the pieces |
| DatasetManager.WalkShape | src/audio_dataset_manager.py:173-175 | the walk writes the pieces up to the first long one, in order and numbered from the counter, then raises `TypeError` at it, or returns the next number when there is none |
| DatasetManager.FilePieces | src/audio_dataset_manager.py:166-175 | for a file with silences, piece `j` spans cut points `j` to `j+1` of `[0] + midpoints`, numbered from 1; all pieces are written exactly when the file ends normally, and then the counter is the number of points |
| DatasetManager.FilePathsDistinct | src/audio_dataset_manager.py:88-91 | no two files written for one input file share a path |
| DatasetManager.ProcessFile | src/audio_dataset_manager.py:159-180 | the loop body for one file computes `FileRun` |
| DatasetManager.TranscribeFromStart | src/audio_dataset_manager.py:166-175 | the loop over the midpoints, from 0 with counter 1, computes the walk over `[0] + midpoints` |
| DatasetManager.ProcessFiles | src/audio_dataset_manager.py:157-182 | the loop over the input files computes `ProcessFilesRun` |
| DatasetManager.ProcessFilesStep | src/audio_dataset_manager.py:158-175 | a run is the first file's writes followed by the run of the others, or ends where that file raised |
| DatasetManager.AsWrittenNoSilenceAborts | src/audio_dataset_manager.py:168-169 | as written, a first file without silence ends `main` with `ValueError` before anything is written |
| DatasetManager.CorrectedNoSilenceSkips | src/audio_dataset_manager.py:168-180 | corrected, such a file is skipped |
| Catalog.ViewAt | src/check_json_utils.py:30-53 | definition of `change_audio` over a loaded dictionary; its properties are in Catalog.ViewInRange and Catalog.ViewOutOfRange |
| Catalog.WithText | src/check_json_utils.py:19 | definition of `json_data[name]['text'] = text`; its properties are in Catalog.WithTextKeeps and Catalog.WithTextReadBack |
| Catalog.AudioJsonHandler.ChangeAudio | src/check_json_utils.py:30-53 | definition of `change_audio` on the handler's state (`TypeError` when nothing is loaded); being a function, it cannot change `json_data`; its properties are in Catalog.ViewInRange and Catalog.ViewOutOfRange |
| Catalog.AudioJsonHandler.HandlePagination | src/check_json_utils.py:22-24 | definition of `handle_pagination`; its properties are in Catalog.PaginationMoves |
| Catalog.Lookup | src/check_json_utils.py:39 | `d[name]` is missing exactly when no entry has that name, and otherwise is the record of an entry with that name |
| Catalog.LookupAt | src/check_json_utils.py:34-39 | in a dictionary, the record at a position is the one found under its name |
| Catalog.WithTextKeeps | src/check_json_utils.py:19 | `d[name]['text'] = text` keeps the key order, every other record and every other field of the edited record |
| Catalog.WithTextReadBack | src/check_json_utils.py:19 | after the edit, the record under the name holds the new text |
| Catalog.ViewInRange | src/check_json_utils.py:42-51 | for `0 <= index < n`, when the key at `index` holds no `/` and its record has a `text` field: the key at `index` in insertion order, the path `json_folder/audios/key`, page `index + 1`, the label `Current Audio: {index+1}/{n}` and the record's `text` |
| Catalog.ViewOutOfRange | src/check_json_utils.py:44-53 | any index below 0 or from `n` on, and only such an index, gives `(None, "", 1, "Audio not available", "")`, with no clamping |
| Catalog.SaveThenView | src/check_json_utils.py:18-51 | after saving the text of a clip whose key holds no `/`, viewing that clip shows the saved text |
| Catalog.GetJson | src/check_json_utils.py:26-28 | the first listed name ending in `.json`, and `None` exactly when none does |
| Catalog.AudioJsonHandler.LoadAndInit | src/check_json_utils.py:10-16 | without a `.json` file it raises `TypeError` and loads nothing; otherwise it loads the dictionary and shows `change_audio(0)` |
| Catalog.AudioJsonHandler.SaveJson | src/check_json_utils.py:18-20 | nothing loaded raises `TypeError`; a missing name raises `KeyError` and changes nothing; otherwise only that record's `text` changes and the reply is the fixed message |
| Catalog.LoadShowsFirst | src/check_json_utils.py:16 | after loading, an empty dictionary shows the fixed view; otherwise, when the first key holds no `/` and its record has `text`, page 1 shows the first key |
| Catalog.PaginationMoves | src/check_json_utils.py:22-24 | `handle_pagination(page, delta)` is `change_audio(page - 1 + delta)`; a move inside the dictionary, to a key without `/` whose record has `text`, lands on page `page + delta` and shows that key (the same page for `delta == 0`); "Next" from the last page gives the fixed view with page 1 |

## Left out

- I/O is not modelled: the ffmpeg subprocess, pydub decoding, slicing and export, the temp folder and `clean_up`, `os.makedirs`, `os.listdir`, `open`, `json.load` and `print`. ffmpeg's output, the listing and the loaded dictionary are parameters. The temp clip that `process_segment` writes is not among the files a run returns.
- Whisper is not modelled: the transcript of a clip is a given function of its offsets.
- `transcriptions_dict` in `split_and_transcribe` is not kept: it is filled and then dropped on return, and nothing observes it.
- Floating point is not modelled: times are exact reals. `float()` rounding, and pydub's rounding of `start * 1000` to whole milliseconds, are not captured.
- SplitUtils.SegmentLength: does not model Python's slicing with a negative start, which counts from the end of the recording. Offsets here come from ffmpeg and are not negative.
- Only unsigned decimals are proved to be read back by the number pattern. The scanner also models the optional sign.
- Silence.ParseReport, Silence.ParseLines, Silence.SplitReport: the round trip is proved only when the text before the first silence line holds no `[`. ffmpeg prints log lines of its own such as `[<component> @ 0x…]`, which that condition excludes. The parser itself, Silence.ParseSilences, has no such condition: Silence.ParseSilencesCases covers any output, and Silence.ParseFragments covers any output whose fragments after the markers hold numbered start and end times, whatever its leading text.
- Silence.FirstNumberNone, Silence.FirstNumberSkipsInert, Silence.FirstNumberOfSeconds, Silence.DecimalAtUnsigned: digits are ASCII only. Python's `\d` on a `str` also matches other Unicode decimal digits, and `float()` accepts them; ffmpeg prints its times in ASCII.
- Text.AsciiLower: lowers ASCII letters only, not the full Unicode `str.lower()`.
- Text.PathJoin follows POSIX `os.path.join`; Windows paths are not modelled.
- The recursion of `split_audio` and `handle_long_segment` carries a `fuel` bound. A run that uses it up ends in `OutOfFuel`, which the source cannot reach.
- SplitUtils.CorrectedFileInside: assumes ffmpeg reports the silences of a clip inside that clip. The source relies on this too, and nothing in the code checks it.
- The long-piece branch of `audio_dataset_manager.py` (lines 112-119) is modelled only as the `TypeError` that its call `detect_silences(segment_path, "-23dB")` raises. The later loop, which also calls `split_and_transcribe` with a missing argument, is never reached.
- JSON values other than strings are not modelled: a record is a map from field name to string. A loaded file that is not an object is not modelled either.
- Pages are whole numbers; a float page from the interface is not modelled.
- The interface files (`*_ui.py`, `webui_main.py`) are not part of this model. `check_json_ui.py` passes three inputs to `save_json`; the model follows the two-parameter signature of `check_json_utils.py`.
- The deletion and archive logic lives in `fix_transcription_utils`, which is not part of this model.
- `analyze_utils.py` and `transcribe_utils.py` are thin wrappers around ffmpeg and Whisper and are not modelled.

## Findings

| source | as written | input that shows it | evidently intended | confidence | as-written member | corrected member |
|---|---|---|---|---|---|---|
| src/split_utils.py:122-125 | `handle_long_segment` has no `return` after its loop, so `split_audio` gets `None` back as the counter. The next short piece is written as `{prefix}_None.{fmt}`, and then `None + 1` raises `TypeError`. | A 40 s recording with silences at 4-6 s, 29-31 s and 34-36 s; ffmpeg finds silences at 1-3 s and 9-11 s in its clip 5-30 s | return the counter after the loop, so that pieces are numbered 1, 2, 3, ... with distinct names | high (not executed) | SplitUtils.ScenarioAsWritten | SplitUtils.CorrectedFileNumbering |
| src/split_utils.py:121-125 | the midpoints of the temp clip are measured from the clip's start but used as offsets into the whole recording | The same recording: the piece 5-30 s is exported as 2-10 s, outside the piece | add the clip's start to each midpoint, so that every piece lies inside the piece it was cut from | high (not executed) | SplitUtils.ScenarioLongPiece | SplitUtils.CorrectedFileInside |
| src/split_utils.py:170-171 | with no silence, `detect_silences` returns a non-empty string; the walrus test treats it as a list, and `extract_midpoints` fails to unpack its first character (`ValueError`). This ends the whole batch. | A first file whose ffmpeg output holds no `[silencedetect @` | skip the file, as the `else` branch that prints 'No silences detected' intends | high (not executed) | SplitUtils.AsWrittenNoSilenceAborts | SplitUtils.CorrectedNoSilenceSkips |
| src/audio_dataset_manager.py:168-169 | the same sentinel-string test: `main` raises `ValueError` on a file without silence | A first file whose ffmpeg output holds no `[silencedetect @` | skip the file | high (not executed) | DatasetManager.AsWrittenNoSilenceAborts | DatasetManager.CorrectedNoSilenceSkips |
