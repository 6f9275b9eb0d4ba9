/** Reading ffmpeg's `silencedetect` report (`detect_silences`) and turning
    silence intervals into cut points (`extract_midpoints`). Both `split_utils.py`
    and `audio_dataset_manager.py` carry the same two routines; this module is the
    one model of them. */
module Silence {
  import opened Python
  import opened Text

  /** The text ffmpeg prints in front of every silencedetect line. */
  const Marker: string := "[silencedetect @"

  // ---------------------------------------------------------------------------
  // The regular expression `[-+]?\d*\.\d+|\d+`, first match only, read as a number
  // ---------------------------------------------------------------------------

  /** The first alternative, `[-+]?\d*\.\d+`, tried at the start of `s`. The greedy
      `\d*` gives a match only when the whole digit run is followed by `.` and a digit. */
  function DecimalAt(s: string): Option<real>
  {
    var signed := |s| > 0 && (s[0] == '+' || s[0] == '-');
    var body := if signed then s[1..] else s;
    var k := LeadingDigits(body);
    if k + 1 < |body| && body[k] == '.' && IsDigit(body[k + 1]) then
      var frac := body[k + 1..];
      var f := LeadingDigits(frac);
      var magnitude := DecimalValue(body[..k], frac[..f]);
      Some(if signed && s[0] == '-' then -magnitude else magnitude)
    else None
  }

  /** The value of the decimal numeral `whole.frac`. */
  function DecimalValue(whole: string, frac: string): real
    requires AllDigits(whole) && AllDigits(frac)
  {
    DigitsValue(whole) as real + Tenths(DigitsValue(frac) as real, |frac|)
  }

  /** `x` divided by ten `k` times: the weight of a `k`-digit fraction. */
  function Tenths(x: real, k: nat): real
  {
    if k == 0 then x else Tenths(x, k - 1) / 10.0
  }

  /** The second alternative, `\d+`, tried at the start of `s`. */
  function IntegerAt(s: string): (r: Option<real>)
    ensures r.Some? <==> |s| > 0 && IsDigit(s[0])
  {
    if |s| > 0 && IsDigit(s[0]) then Some(DigitsValue(s[..LeadingDigits(s)]) as real) else None
  }

  /** A match of the whole pattern at the start of `s` (left alternative first). */
  function MatchAt(s: string): Option<real>
  {
    if DecimalAt(s).Some? then DecimalAt(s) else IntegerAt(s)
  }

  /** `float(re.findall(pattern, s)[0])`, or `None` when `findall` finds nothing.
      The scan moves right one character at a time until a match starts. */
  function FirstNumber(s: string): Option<real>
    decreases |s|
  {
    if |s| == 0 then None
    else if MatchAt(s).Some? then MatchAt(s)
    else FirstNumber(s[1..])
  }

  /** A match of the first alternative holds a digit. */
  lemma {:induction false} DecimalAtHasDigit(s: string)
    ensures DecimalAt(s).Some? ==> exists i :: 0 <= i < |s| && IsDigit(s[i])
  {
    var signed := |s| > 0 && (s[0] == '+' || s[0] == '-');
    var body := if signed then s[1..] else s;
    var k := LeadingDigits(body);
    if DecimalAt(s).Some? {
      assert s[if signed then k + 2 else k + 1] == body[k + 1];
    }
  }

  /** `findall` finds nothing exactly when the text holds no digit: every match
      holds one, and a digit is always matched by `\d+` at the latest. */
  lemma {:induction false} FirstNumberNone(s: string)
    ensures FirstNumber(s).None? <==> forall i :: 0 <= i < |s| ==> !IsDigit(s[i])
    decreases |s|
  {
    if |s| > 0 {
      DecimalAtHasDigit(s);
      if MatchAt(s).None? {
        FirstNumberNone(s[1..]);
        assert forall i :: 1 <= i < |s| ==> s[i] == s[1..][i - 1];
      }
    }
  }

  /** A character that cannot take part in a match: no digit, sign or point. */
  predicate Inert(c: char)
  {
    !IsDigit(c) && c != '+' && c != '-' && c != '.'
  }

  /** Text made of inert characters in front of `t` is skipped by the scan. */
  lemma {:induction false} FirstNumberSkipsInert(p: string, t: string)
    requires forall i :: 0 <= i < |p| ==> Inert(p[i])
    ensures FirstNumber(p + t) == FirstNumber(t)
  {
    var s := p + t;
    if |p| > 0 {
      assert s[0] == p[0];
      assert LeadingDigits(s) == 0;
      assert MatchAt(s).None?;
      assert s[1..] == p[1..] + t;
      FirstNumberSkipsInert(p[1..], t);
    } else {
      assert s == t;
    }
  }

  /** `ms` milliseconds written as seconds with three decimals, as `float()` reads it. */
  function SecondsText(ms: nat): (r: string)
    ensures |r| > 0 && IsDigit(r[0])
  {
    NatToString(ms / 1000) + "." + LastDigits(ms % 1000, 3)
  }

  /** The last `k` decimal digits of `m`, with leading zeros. */
  function LastDigits(m: nat, k: nat): (r: string)
    ensures |r| == k
  {
    if k == 0 then [] else LastDigits(m / 10, k - 1) + [DigitChar(m % 10)]
  }

  /** The three digits read back as `m`: the numeral is `str(m).zfill(3)`. */
  lemma {:induction false} ThreeDigitsValue(m: nat)
    requires m < 1000
    ensures AllDigits(LastDigits(m, 3)) && DigitsValue(LastDigits(m, 3)) == m
  {
    assert Pow10(3) == 1000 by { assert Pow10(1) == 10; }
    LastDigitsValue(m, 3);
  }

  lemma {:induction false} LastDigitsValue(m: nat, k: nat)
    requires m < Pow10(k)
    ensures AllDigits(LastDigits(m, k)) && DigitsValue(LastDigits(m, k)) == m
  {
    if k > 0 {
      var r := LastDigits(m, k);
      LastDigitsValue(m / 10, k - 1);
      assert r[..k - 1] == LastDigits(m / 10, k - 1);
    }
  }

  /** An unsigned decimal `whole.frac` followed by a non-digit is matched whole by
      the first alternative. */
  lemma {:induction false} DecimalAtUnsigned(whole: string, frac: string, rest: string)
    requires |whole| > 0 && AllDigits(whole) && |frac| > 0 && AllDigits(frac)
    requires |rest| > 0 && !IsDigit(rest[0])
    ensures DecimalAt(whole + "." + frac + rest) == Some(DecimalValue(whole, frac))
  {
    var s := whole + "." + frac + rest;
    var tail := frac + rest;
    assert s == whole + ("." + tail);
    LeadingDigitsOf(whole, "." + tail);
    LeadingDigitsOf(frac, rest);
    assert s[0] == whole[0];
    assert s[|whole|] == '.';
    assert s[|whole| + 1..] == tail;
    assert tail[0] == frac[0];
    assert s[..|whole|] == whole;
    assert tail[..|frac|] == frac;
    DecimalAtUnsignedParts(s, whole, tail, frac);
  }

  /** The first alternative on text that starts with a run of digits `whole`,
      then a `.` and `tail`, whose leading digits `frac` are the fraction. */
  lemma {:induction false} DecimalAtUnsignedParts(s: string, whole: string, tail: string, frac: string)
    requires |s| > 0 && IsDigit(s[0]) && LeadingDigits(s) == |whole| && s[..|whole|] == whole
    requires |whole| + 1 < |s| && s[|whole|] == '.' && s[|whole| + 1..] == tail
    requires |tail| > 0 && IsDigit(tail[0]) && LeadingDigits(tail) == |frac| && tail[..|frac|] == frac
    ensures AllDigits(whole) && AllDigits(frac)
    ensures DecimalAt(s) == Some(DecimalValue(whole, frac))
  {
  }

  /** The scan reads an unsigned decimal `whole.frac` followed by a non-digit. */
  lemma {:induction false} FirstNumberOfDecimal(numeral: string, whole: string, frac: string, rest: string, v: real)
    requires numeral == whole + "." + frac
    requires |whole| > 0 && AllDigits(whole) && |frac| > 0 && AllDigits(frac)
    requires |rest| > 0 && !IsDigit(rest[0])
    requires DecimalValue(whole, frac) == v
    ensures FirstNumber(numeral + rest) == Some(v)
  {
    DecimalAtUnsigned(whole, frac, rest);
  }

  /** `SecondsText(ms)` is the numeral `whole.frac` of `ms / 1000` seconds. */
  lemma {:induction false} SecondsNumeral(ms: nat) returns (whole: string, frac: string)
    ensures SecondsText(ms) == whole + "." + frac
    ensures |whole| > 0 && AllDigits(whole) && |frac| == 3 && AllDigits(frac)
    ensures DecimalValue(whole, frac) == ms as real / 1000.0
  {
    whole := NatToString(ms / 1000);
    frac := LastDigits(ms % 1000, 3);
    ThreeDigitsValue(ms % 1000);
    var v := DecimalValue(whole, frac);
    assert v == (ms / 1000) as real + (ms % 1000) as real / 1000.0 by {
      assert DigitsValue(whole) == ms / 1000;
      assert DigitsValue(frac) == ms % 1000;
      assert Tenths(DigitsValue(frac) as real, |frac|) == (ms % 1000) as real / 1000.0 by {
        var x := DigitsValue(frac) as real;
        assert Tenths(x, 1) == x / 10.0;
        assert Tenths(x, 3) == Tenths(x, 2) / 10.0;
      }
    }
    var q, m := ms / 1000, ms % 1000;
    assert ms as real == 1000.0 * q as real + m as real;
  }

  /** The scan reads back a number written by `SecondsText`, whatever non-digit
      text follows it: only the first number counts. */
  lemma {:induction false} FirstNumberOfSeconds(ms: nat, rest: string)
    requires |rest| > 0 && !IsDigit(rest[0])
    ensures FirstNumber(SecondsText(ms) + rest) == Some(ms as real / 1000.0)
  {
    var whole, frac := SecondsNumeral(ms);
    FirstNumberOfDecimal(SecondsText(ms), whole, frac, rest, ms as real / 1000.0);
  }

  // ---------------------------------------------------------------------------
  // Fragments of the report
  // ---------------------------------------------------------------------------

  /** `segment.split(']')[1]` does not raise: the fragment holds a `]`. */
  predicate Bracketed(fragment: string)
  {
    |Split(fragment, "]")| >= 2
  }

  /** The time a fragment contributes: the first number of the text between its
      first and second `]`. */
  function FragmentTime(fragment: string): Option<real>
    requires Bracketed(fragment)
  {
    FirstNumber(Split(fragment, "]")[1])
  }

  predicate AllBracketed(fs: seq<string>)
  {
    forall k :: 0 <= k < |fs| ==> Bracketed(fs[k])
  }

  /** The time of each fragment, in order. */
  function Times(fs: seq<string>): (r: seq<Option<real>>)
    requires AllBracketed(fs)
    ensures |r| == |fs|
  {
    seq(|fs|, k requires 0 <= k < |fs| => FragmentTime(fs[k]))
  }

  /** Fragments are numbered from 1: the odd ones are silence starts, the even ones ends. */
  predicate IsStartSlot(position: nat)
  {
    position % 2 == 1
  }

  /** The times the append loop collects from fragment times `ts` (numbered
      1..|ts|) into the starts list (`starts == true`) or the ends list. A fragment
      with no number adds nothing, and the next fragment keeps its own position. */
  function Collect(ts: seq<Option<real>>, starts: bool): seq<real>
  {
    if |ts| == 0 then []
    else
      var t := ts[|ts| - 1];
      Collect(ts[..|ts| - 1], starts) + (if IsStartSlot(|ts|) == starts && t.Some? then [t.value] else [])
  }

  /** `list(zip(a, b))`. */
  function Zip(a: seq<real>, b: seq<real>): (r: seq<(real, real)>)
    ensures |r| == if |a| <= |b| then |a| else |b|
    ensures forall i :: 0 <= i < |r| ==> r[i] == (a[i], b[i])
  {
    var n := if |a| <= |b| then |a| else |b|;
    seq(n, i requires 0 <= i < n => (a[i], b[i]))
  }

  /** What `detect_silences` produces. */
  datatype Detection =
    | NoSilence                              // the string 'No silence was detected'
    | Silences(pairs: seq<(real, real)>)     // a list of (start, end) tuples
    | Failed(error: PyError)                 // `split(']')[1]` raised

  /** `detect_silences` after ffmpeg has run, as a function of its output text. */
  function ParseSilences(output: string): Detection
  {
    var info := Split(output, Marker);
    if |info| <= 1 then NoSilence
    else if !AllBracketed(info[1..]) then Failed(IndexError)
    else
      var ts := Times(info[1..]);
      Silences(Zip(Collect(ts, true), Collect(ts, false)))
  }

  /** The three ways `detect_silences` ends: no marker in the output, a fragment
      after a marker without a bracket (the `[1]` index raises), or a list. */
  lemma {:induction false} ParseSilencesCases(output: string)
    ensures ParseSilences(output).NoSilence? <==> Find(output, Marker).None?
    ensures ParseSilences(output).Failed? ==> ParseSilences(output).error == IndexError
    ensures ParseSilences(output).Failed? <==>
      exists k :: 1 <= k < |Split(output, Marker)| && !Bracketed(Split(output, Marker)[k])
  {
    var info := Split(output, Marker);
    if |info| > 1 && !AllBracketed(info[1..]) {
      var j :| 0 <= j < |info| - 1 && !Bracketed(info[1..][j]);
      assert info[1..][j] == info[j + 1];
      assert 1 <= j + 1 < |info| && !Bracketed(info[j + 1]);
      assert ParseSilences(output).Failed?;
      assert exists k :: 1 <= k < |Split(output, Marker)| && !Bracketed(Split(output, Marker)[k]);
    } else if |info| > 1 {
      assert forall k :: 1 <= k < |info| ==> info[k] == info[1..][k - 1];
    }
  }

  /** When every fragment carries a number there are as many starts as odd
      positions and as many ends as even ones. */
  lemma {:induction false} CollectAllNumberedLength(ts: seq<Option<real>>)
    requires forall k :: 0 <= k < |ts| ==> ts[k].Some?
    ensures |Collect(ts, true)| == (|ts| + 1) / 2 && |Collect(ts, false)| == |ts| / 2
  {
    if |ts| > 0 {
      CollectAllNumberedLength(ts[..|ts| - 1]);
    }
  }

  /** When every fragment carries a number, the i-th start is the time of fragment
      2i+1 and the i-th end that of fragment 2i+2 (numbering from 1). */
  lemma {:induction false} CollectAllNumbered(ts: seq<Option<real>>)
    requires forall k :: 0 <= k < |ts| ==> ts[k].Some?
    ensures |Collect(ts, true)| == (|ts| + 1) / 2 && |Collect(ts, false)| == |ts| / 2
    ensures forall i :: 0 <= i < |Collect(ts, true)| ==> Collect(ts, true)[i] == ts[2 * i].value
    ensures forall i :: 0 <= i < |Collect(ts, false)| ==> Collect(ts, false)[i] == ts[2 * i + 1].value
  {
    CollectAllNumberedLength(ts);
    if |ts| > 0 {
      var init := ts[..|ts| - 1];
      CollectAllNumbered(init);
      assert forall k :: 0 <= k < |init| ==> init[k] == ts[k];
    }
  }

  /** A fragment only ever feeds the list of its own parity: two reports whose
      fragments agree on the times at the positions of one parity produce the same
      list for that parity, whatever the other fragments hold (with or without a
      number). */
  lemma {:induction false} CollectDependsOnOwnParity(ts: seq<Option<real>>, us: seq<Option<real>>, starts: bool)
    requires |ts| == |us|
    requires forall k :: 0 <= k < |ts| && IsStartSlot(k + 1) == starts ==> ts[k] == us[k]
    ensures Collect(ts, starts) == Collect(us, starts)
  {
    if |ts| > 0 {
      var n := |ts| - 1;
      CollectDependsOnOwnParity(ts[..n], us[..n], starts);
    }
  }

  /** `detect_silences` from the point where ffmpeg's output is decoded: split on the
      marker, then walk the fragments appending each one's time to the starts or the
      ends list, and zip the two. */
  method DetectSilences(output: string) returns (d: Detection)
    ensures d == ParseSilences(output)
  {
    var silenceInfo := Split(output, Marker);
    var silenceStarts: seq<real> := [];
    var silenceEnds: seq<real> := [];
    if |silenceInfo| <= 1 {
      return NoSilence;
    }
    var index := 1;
    while index < |silenceInfo|
      invariant 1 <= index <= |silenceInfo|
      invariant AllBracketed(silenceInfo[1..index])
      invariant silenceStarts == Collect(Times(silenceInfo[1..index]), true)
      invariant silenceEnds == Collect(Times(silenceInfo[1..index]), false)
    {
      var segment := silenceInfo[index];
      var pieces := Split(segment, "]");
      if |pieces| < 2 {
        assert !Bracketed(silenceInfo[index]);
        return Failed(IndexError);
      }
      var time := FirstNumber(pieces[1]);
      DetectStep(silenceInfo, index, silenceStarts, silenceEnds, time);
      if time.Some? {
        if index % 2 == 0 {
          silenceEnds := silenceEnds + [time.value];
        } else {
          silenceStarts := silenceStarts + [time.value];
        }
      }
      index := index + 1;
    }
    assert silenceInfo[1..index] == silenceInfo[1..];
    return Silences(Zip(silenceStarts, silenceEnds));
  }

  /** One turn of the append loop: fragment `index` is bracketed and its time goes
      to the starts list at an odd position, to the ends list at an even one. */
  lemma {:induction false} DetectStep(info: seq<string>, index: nat, starts: seq<real>, ends: seq<real>, time: Option<real>)
    requires 1 <= index < |info| && AllBracketed(info[1..index]) && Bracketed(info[index])
    requires time == FragmentTime(info[index])
    requires starts == Collect(Times(info[1..index]), true) && ends == Collect(Times(info[1..index]), false)
    ensures AllBracketed(info[1..index + 1])
    ensures Collect(Times(info[1..index + 1]), true) == starts + (if index % 2 == 1 && time.Some? then [time.value] else [])
    ensures Collect(Times(info[1..index + 1]), false) == ends + (if index % 2 == 0 && time.Some? then [time.value] else [])
  {
    var fs := info[1..index];
    TimesSnoc(fs, info[index]);
    assert info[1..index + 1] == fs + [info[index]];
    assert |Times(fs)| == index - 1;
    CollectSnoc(Times(fs), time, true);
    CollectSnoc(Times(fs), time, false);
  }

  lemma {:induction false} CollectSnoc(ts: seq<Option<real>>, t: Option<real>, starts: bool)
    ensures Collect(ts + [t], starts) == Collect(ts, starts) + (if IsStartSlot(|ts| + 1) == starts && t.Some? then [t.value] else [])
  {
    assert (ts + [t])[..|ts|] == ts;
  }

  /** One more fragment adds its time at the end. */
  lemma {:induction false} TimesSnoc(fs: seq<string>, f: string)
    requires AllBracketed(fs) && Bracketed(f)
    ensures AllBracketed(fs + [f])
    ensures Times(fs + [f]) == Times(fs) + [FragmentTime(f)]
    ensures Times(fs + [f])[..|fs|] == Times(fs)
  {
    assert forall k :: 0 <= k < |fs| ==> (fs + [f])[k] == fs[k];
  }

  // ---------------------------------------------------------------------------
  // A well-formed report, and reading it back
  // ---------------------------------------------------------------------------

  /** The three numerals ffmpeg prints for one silence. */
  datatype Line = Line(start: string, end: string, duration: string)

  /** The fixed texts of a silence line pair: the filter's address, closed by `]`,
      then the field names. */
  const Address: string := " 0x0"
  const StartField: string := " silence_start: "
  const EndField: string := " silence_end: "
  const DurationField: string := " | silence_duration: "
  const Newline: string := "\n"

  /** What the fixed texts hold: no bracket after the address, no character
      the number pattern could start with in the field names. */
  lemma {:induction false} FixedTexts()
    ensures ']' !in Address && '[' !in Address
    ensures Plain(StartField) && Plain(EndField) && Plain(DurationField) && Plain(Newline)
    ensures forall i :: 0 <= i < |StartField| ==> Inert(StartField[i])
    ensures forall i :: 0 <= i < |EndField| ==> Inert(EndField[i])
  {
  }

  /** Text with no bracket: it cannot hold the marker or close a fragment's first field. */
  predicate Plain(t: string)
  {
    '[' !in t && ']' !in t
  }

  predicate PlainLine(l: Line)
  {
    Plain(l.start) && Plain(l.end) && Plain(l.duration)
  }

  /** The text after the start line's `]`. */
  function StartText(l: Line): string
  {
    StartField + l.start + Newline
  }

  /** The text after the end line's `]`. */
  function EndText(l: Line): string
  {
    EndField + l.end + DurationField + l.duration + Newline
  }

  /** The start line of a silence, after the marker. */
  function StartFragment(l: Line): string
  {
    Address + "]" + StartText(l)
  }

  /** The end line of a silence, after the marker. */
  function EndFragment(l: Line): string
  {
    Address + "]" + EndText(l)
  }

  /** The two lines ffmpeg prints for one silence. */
  function LinePair(l: Line): string
  {
    Marker + StartFragment(l) + Marker + EndFragment(l)
  }

  /** A report: some leading text, then the lines of each silence. */
  function Report(header: string, lines: seq<Line>): string
  {
    if |lines| == 0 then header
    else Report(header, lines[..|lines| - 1]) + LinePair(lines[|lines| - 1])
  }

  /** The fragments a report is cut into after its leading text. */
  function Fragments(lines: seq<Line>): seq<string>
  {
    if |lines| == 0 then []
    else Fragments(lines[..|lines| - 1]) + [StartFragment(lines[|lines| - 1]), EndFragment(lines[|lines| - 1])]
  }

  lemma {:induction false} FragmentsLength(lines: seq<Line>)
    ensures |Fragments(lines)| == 2 * |lines|
  {
    if |lines| > 0 {
      FragmentsLength(lines[..|lines| - 1]);
    }
  }

  /** Fragment 2i is the start line of silence i and fragment 2i+1 its end line. */
  lemma {:induction false} FragmentsAt(lines: seq<Line>)
    requires |Fragments(lines)| == 2 * |lines|
    ensures forall i :: 0 <= i < |lines| ==>
      Fragments(lines)[2 * i] == StartFragment(lines[i]) && Fragments(lines)[2 * i + 1] == EndFragment(lines[i])
  {
    if |lines| > 0 {
      var init := lines[..|lines| - 1];
      FragmentsLength(init);
      FragmentsAt(init);
      assert forall i :: 0 <= i < |init| ==> init[i] == lines[i];
    }
  }

  /** A report is its leading text and its fragments joined with the marker. */
  lemma {:induction false} ReportIsJoin(header: string, lines: seq<Line>)
    ensures Report(header, lines) == JoinWith([header] + Fragments(lines), Marker)
  {
    if |lines| > 0 {
      var init, last := lines[..|lines| - 1], lines[|lines| - 1];
      ReportIsJoin(header, init);
      var p := [header] + Fragments(init);
      var a, b := StartFragment(last), EndFragment(last);
      assert [header] + Fragments(lines) == p + [a] + [b];
      JoinPairStep(p, a, b, Marker, Report(header, init));
    }
  }

  /** Joining two more parts appends the separator before each. */
  lemma {:induction false} JoinPairStep(p: seq<string>, a: string, b: string, sep: string, joined: string)
    requires |p| >= 1 && joined == JoinWith(p, sep)
    ensures JoinWith(p + [a] + [b], sep) == joined + (sep + a + sep + b)
  {
    var q := p + [a];
    JoinWithSnoc(p, a, sep);
    JoinWithSnoc(q, b, sep);
    assert joined + sep + a + sep + b == joined + (sep + a + sep + b);
  }

  /** Neither line of a silence holds a `[`. */
  lemma {:induction false} NoBracketInFragments(l: Line)
    requires PlainLine(l)
    ensures '[' !in StartFragment(l) && '[' !in EndFragment(l)
  {
  }

  /** Cutting a report on the marker separates the leading text from the fragments. */
  lemma {:induction false} SplitReport(header: string, lines: seq<Line>)
    requires '[' !in header
    requires forall i :: 0 <= i < |lines| ==> PlainLine(lines[i])
    ensures Split(Report(header, lines), Marker) == [header] + Fragments(lines)
  {
    ReportIsJoin(header, lines);
    FragmentsLength(lines);
    FragmentsAt(lines);
    var parts := [header] + Fragments(lines);
    forall k | 0 <= k < |parts| ensures Marker[0] !in parts[k] {
      if k > 0 {
        NoBracketInFragments(lines[(k - 1) / 2]);
        assert k - 1 == 2 * ((k - 1) / 2) || k - 1 == 2 * ((k - 1) / 2) + 1;
      }
    }
    SplitJoinWith(parts, Marker);
  }

  /** A fragment `address]text`, neither part holding a `]`, yields the first
      number of `text`. */
  lemma {:induction false} FragmentTimeOf(fragment: string, address: string, text: string)
    requires fragment == address + "]" + text
    requires ']' !in address && ']' !in text
    ensures Bracketed(fragment) && FragmentTime(fragment) == FirstNumber(text)
  {
    assert JoinWith([address, text], "]") == fragment;
    SplitJoinWith([address, text], "]");
  }

  /** A line that reads as the silence `p`: plain numerals, the start numeral giving
      `p.0` and the end numeral `p.1`. */
  predicate ReadsAs(l: Line, p: (real, real))
  {
    && PlainLine(l)
    && FirstNumber(l.start + Newline) == Some(p.0)
    && FirstNumber(l.end + DurationField + l.duration + Newline) == Some(p.1)
  }

  /** The start line gives the start time of the silence it prints. */
  lemma {:induction false} StartTime(l: Line, v: real)
    requires Plain(l.start) && FirstNumber(l.start + Newline) == Some(v)
    ensures Bracketed(StartFragment(l)) && FragmentTime(StartFragment(l)) == Some(v)
  {
    FixedTexts();
    var text := StartText(l);
    assert text == StartField + (l.start + Newline);
    FragmentTimeOf(StartFragment(l), Address, text);
    FirstNumberSkipsInert(StartField, l.start + Newline);
  }

  /** The end line gives the end time of the silence it prints. */
  lemma {:induction false} EndTime(l: Line, v: real)
    requires Plain(l.end) && Plain(l.duration)
    requires FirstNumber(l.end + DurationField + l.duration + Newline) == Some(v)
    ensures Bracketed(EndFragment(l)) && FragmentTime(EndFragment(l)) == Some(v)
  {
    FixedTexts();
    var number := l.end + DurationField + l.duration + Newline;
    var text := EndText(l);
    assert text == EndField + number;
    assert ']' !in number;
    FragmentTimeOf(EndFragment(l), Address, text);
    FirstNumberSkipsInert(EndField, number);
  }

  /** Both lines of a silence give its times. */
  lemma {:induction false} LineTimes(l: Line, p: (real, real))
    requires ReadsAs(l, p)
    ensures Bracketed(StartFragment(l)) && FragmentTime(StartFragment(l)) == Some(p.0)
    ensures Bracketed(EndFragment(l)) && FragmentTime(EndFragment(l)) == Some(p.1)
  {
    StartTime(l, p.0);
    EndTime(l, p.1);
  }

  /** Times that come in start/end pairs, all present, zip back into those pairs. */
  lemma {:induction false} ZipCollectPairs(ts: seq<Option<real>>, values: seq<(real, real)>)
    requires |ts| == 2 * |values|
    requires forall i :: 0 <= i < |values| ==> ts[2 * i] == Some(values[i].0) && ts[2 * i + 1] == Some(values[i].1)
    ensures Zip(Collect(ts, true), Collect(ts, false)) == values
  {
    forall k | 0 <= k < |ts| ensures ts[k].Some? {
      var i := k / 2;
      assert ts[2 * i] == Some(values[i].0) && ts[2 * i + 1] == Some(values[i].1);
      assert k == 2 * i || k == 2 * i + 1;
    }
    CollectAllNumbered(ts);
    var z := Zip(Collect(ts, true), Collect(ts, false));
    forall i | 0 <= i < |values| ensures z[i] == values[i] {
      assert ts[2 * i] == Some(values[i].0) && ts[2 * i + 1] == Some(values[i].1);
    }
  }

  /** Parsing output whose fragments come in start/end pairs that all carry a time. */
  lemma {:induction false} ParseFragments(output: string, header: string, fs: seq<string>, values: seq<(real, real)>)
    requires Split(output, Marker) == [header] + fs
    requires |values| > 0 && |fs| == 2 * |values| && AllBracketed(fs)
    requires forall i :: 0 <= i < |values| ==>
      FragmentTime(fs[2 * i]) == Some(values[i].0) && FragmentTime(fs[2 * i + 1]) == Some(values[i].1)
    ensures ParseSilences(output) == Silences(values)
  {
    var info := Split(output, Marker);
    assert info[1..] == fs;
    var ts := Times(fs);
    forall i | 0 <= i < |values| ensures ts[2 * i] == Some(values[i].0) && ts[2 * i + 1] == Some(values[i].1) {
      assert ts[2 * i] == FragmentTime(fs[2 * i]) && ts[2 * i + 1] == FragmentTime(fs[2 * i + 1]);
    }
    ZipCollectPairs(ts, values);
  }

  /** Reading back a report: no line gives `NoSilence`, otherwise the silences the
      lines print, in order. */
  lemma {:induction false} ParseLines(header: string, lines: seq<Line>, values: seq<(real, real)>)
    requires '[' !in header && |lines| == |values|
    requires forall i :: 0 <= i < |lines| ==> ReadsAs(lines[i], values[i])
    ensures ParseSilences(Report(header, lines)) == if |lines| == 0 then NoSilence else Silences(values)
  {
    SplitReport(header, lines);
    if |lines| > 0 {
      FragmentTimesOfLines(lines, values);
      ParseFragments(Report(header, lines), header, Fragments(lines), values);
    }
  }

  /** The fragments of lines that read as `values` carry those times, in pairs. */
  lemma {:induction false} FragmentTimesOfLines(lines: seq<Line>, values: seq<(real, real)>)
    requires |lines| == |values|
    requires forall i :: 0 <= i < |lines| ==> ReadsAs(lines[i], values[i])
    ensures |Fragments(lines)| == 2 * |values| && AllBracketed(Fragments(lines))
    ensures forall i :: 0 <= i < |values| ==>
      FragmentTime(Fragments(lines)[2 * i]) == Some(values[i].0) && FragmentTime(Fragments(lines)[2 * i + 1]) == Some(values[i].1)
  {
    var fs := Fragments(lines);
    FragmentsLength(lines);
    FragmentsAt(lines);
    forall i | 0 <= i < |values|
      ensures Bracketed(fs[2 * i]) && FragmentTime(fs[2 * i]) == Some(values[i].0)
      ensures Bracketed(fs[2 * i + 1]) && FragmentTime(fs[2 * i + 1]) == Some(values[i].1)
    {
      LineTimes(lines[i], values[i]);
    }
    PairsBracketed(fs, |values|);
  }

  lemma {:induction false} PairsBracketed(fs: seq<string>, n: nat)
    requires |fs| == 2 * n
    requires forall i :: 0 <= i < n ==> Bracketed(fs[2 * i]) && Bracketed(fs[2 * i + 1])
    ensures AllBracketed(fs)
  {
    forall k | 0 <= k < |fs| ensures Bracketed(fs[k]) {
      var i := k / 2;
      assert k == 2 * i || k == 2 * i + 1;
    }
  }

  /** The silences in seconds. */
  function InSeconds(silences: seq<(nat, nat)>): (r: seq<(real, real)>)
    ensures |r| == |silences|
  {
    seq(|silences|, i requires 0 <= i < |silences| => (silences[i].0 as real / 1000.0, silences[i].1 as real / 1000.0))
  }

  /** The numerals of a silence from `startMs` to `endMs` milliseconds. */
  function SecondsLine(startMs: nat, endMs: nat): Line
  {
    var duration := if endMs >= startMs then endMs - startMs else 0;
    Line(SecondsText(startMs), SecondsText(endMs), SecondsText(duration))
  }

  /** The lines of a report listing `silences` in milliseconds. */
  function Render(silences: seq<(nat, nat)>): (r: seq<Line>)
    ensures |r| == |silences|
  {
    seq(|silences|, i requires 0 <= i < |silences| => SecondsLine(silences[i].0, silences[i].1))
  }

  lemma {:induction false} NoBracketInSeconds(ms: nat)
    ensures Plain(SecondsText(ms))
  {
    var a := NatToString(ms / 1000);
    var b := LastDigits(ms % 1000, 3);
    ThreeDigitsValue(ms % 1000);
    assert SecondsText(ms) == a + "." + b;
    assert forall i :: 0 <= i < |a| ==> IsDigit(a[i]);
  }

  /** A line printed from milliseconds reads back as the same times in seconds. */
  lemma {:induction false} SecondsLineReads(startMs: nat, endMs: nat)
    ensures ReadsAs(SecondsLine(startMs, endMs), (startMs as real / 1000.0, endMs as real / 1000.0))
  {
    var l := SecondsLine(startMs, endMs);
    NoBracketInSeconds(startMs);
    NoBracketInSeconds(endMs);
    NoBracketInSeconds(if endMs >= startMs then endMs - startMs else 0);
    FirstNumberOfSeconds(startMs, Newline);
    var tail := DurationField + l.duration + Newline;
    assert l.end + DurationField + l.duration + Newline == l.end + tail;
    FirstNumberOfSeconds(endMs, tail);
  }

  /** Round trip: the parser reads back, in seconds and in order, exactly the
      silences a well-formed report lists, and `NoSilence` when it lists none. */
  lemma {:induction false} ParseReport(header: string, silences: seq<(nat, nat)>)
    requires '[' !in header
    ensures ParseSilences(Report(header, Render(silences)))
      == if |silences| == 0 then NoSilence else Silences(InSeconds(silences))
  {
    RenderReads(silences);
    ParseLines(header, Render(silences), InSeconds(silences));
  }

  /** Every rendered line reads as its silence in seconds. */
  lemma {:induction false} RenderReads(silences: seq<(nat, nat)>)
    ensures forall i :: 0 <= i < |silences| ==> ReadsAs(Render(silences)[i], InSeconds(silences)[i])
  {
    forall i | 0 <= i < |silences| ensures ReadsAs(Render(silences)[i], InSeconds(silences)[i]) {
      RenderedReadsAt(silences, i);
    }
  }

  lemma {:induction false} RenderedReadsAt(silences: seq<(nat, nat)>, i: nat)
    requires i < |silences|
    ensures ReadsAs(Render(silences)[i], InSeconds(silences)[i])
  {
    var s := silences[i];
    assert Render(silences)[i] == SecondsLine(s.0, s.1);
    assert InSeconds(silences)[i] == (s.0 as real / 1000.0, s.1 as real / 1000.0);
    RenderedLineReads(Render(silences)[i], InSeconds(silences)[i], s.0, s.1);
  }

  lemma {:induction false} RenderedLineReads(l: Line, p: (real, real), startMs: nat, endMs: nat)
    requires l == SecondsLine(startMs, endMs)
    requires p == (startMs as real / 1000.0, endMs as real / 1000.0)
    ensures ReadsAs(l, p)
  {
    SecondsLineReads(startMs, endMs);
  }

  // ---------------------------------------------------------------------------
  // Cut points
  // ---------------------------------------------------------------------------

  /** `extract_midpoints`: the middle of each silence, in order. */
  function Midpoints(silences: seq<(real, real)>): (r: seq<real>)
    ensures |r| == |silences|
    ensures forall i :: 0 <= i < |r| && silences[i].0 <= silences[i].1 ==> silences[i].0 <= r[i] <= silences[i].1
    ensures forall i :: 0 <= i < |r| && silences[i].0 < silences[i].1 ==> silences[i].0 < r[i] < silences[i].1
  {
    seq(|silences|, i requires 0 <= i < |silences| => (silences[i].0 + silences[i].1) / 2.0)
  }

  /** Silences that follow one another without overlap give strictly increasing
      cut points. */
  lemma {:induction false} MidpointsIncrease(silences: seq<(real, real)>)
    requires forall i :: 0 <= i < |silences| ==> silences[i].0 < silences[i].1
    requires forall i :: 0 <= i < |silences| - 1 ==> silences[i].1 <= silences[i + 1].0
    ensures forall i, j :: 0 <= i < j < |silences| ==> Midpoints(silences)[i] < Midpoints(silences)[j]
  {
    var m := Midpoints(silences);
    forall i, j | 0 <= i < j < |silences| ensures m[i] < m[j] {
      MidpointsIncreaseStep(silences, i, j);
    }
  }

  lemma {:induction false} MidpointsIncreaseStep(silences: seq<(real, real)>, i: nat, j: nat)
    requires forall i :: 0 <= i < |silences| ==> silences[i].0 < silences[i].1
    requires forall i :: 0 <= i < |silences| - 1 ==> silences[i].1 <= silences[i + 1].0
    requires i < j < |silences|
    ensures Midpoints(silences)[i] < silences[i].1 <= silences[j - 1].1
    ensures Midpoints(silences)[i] < Midpoints(silences)[j]
    decreases j - i
  {
    if j > i + 1 {
      MidpointsIncreaseStep(silences, i, j - 1);
    }
  }
}
