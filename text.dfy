/** The string operations of Python's `str` and `os.path` (POSIX flavour) that the
    splitter and the catalog viewer rely on: `find`, `split`, `rfind`, `lower`,
    `endswith`, `zfill`, `str(int)`, `os.path.basename` and `os.path.join`. */
module Text {
  import opened Python

  /** `pat` occurs in `s` starting at index `i`. */
  predicate OccursAt(s: string, pat: string, i: nat)
  {
    i + |pat| <= |s| && s[i..i + |pat|] == pat
  }

  /** `str.find(pat, i)`: the first occurrence of `pat` at or after `i`. */
  function FindFrom(s: string, pat: string, i: nat): Option<nat>
    requires i <= |s|
    decreases |s| - i
  {
    if i + |pat| > |s| then None
    else if OccursAt(s, pat, i) then Some(i)
    else FindFrom(s, pat, i + 1)
  }

  /** `find` returns the first occurrence at or after `i`, and `-1` (here `None`)
      only when there is none. */
  lemma {:induction false} FindFromSound(s: string, pat: string, i: nat)
    requires i <= |s|
    ensures var r := FindFrom(s, pat, i);
      && (r.Some? ==> i <= r.value && OccursAt(s, pat, r.value))
      && (r.Some? ==> forall j :: i <= j < r.value ==> !OccursAt(s, pat, j))
      && (r.None? ==> forall j :: i <= j ==> !OccursAt(s, pat, j))
    decreases |s| - i
  {
    if i + |pat| <= |s| && !OccursAt(s, pat, i) {
      FindFromSound(s, pat, i + 1);
    }
  }

  function Find(s: string, pat: string): Option<nat>
  {
    FindFrom(s, pat, 0)
  }

  /** `sep.join(parts)`. */
  function JoinWith(parts: seq<string>, sep: string): string
  {
    if |parts| == 0 then []
    else if |parts| == 1 then parts[0]
    else parts[0] + sep + JoinWith(parts[1..], sep)
  }

  /** A piece before the first occurrence of `sep` contains no occurrence of it. */
  lemma {:induction false} PrefixBeforeFirstOccurrence(s: string, sep: string, i: nat)
    requires |sep| > 0 && i <= |s|
    requires forall j :: 0 <= j < i ==> !OccursAt(s, sep, j)
    ensures Find(s[..i], sep).None?
  {
    FindFromSound(s[..i], sep, 0);
    forall j | 0 <= j && OccursAt(s[..i], sep, j)
      ensures false
    {
      assert s[..i][j..j + |sep|] == s[j..j + |sep|];
      assert OccursAt(s, sep, j);
    }
  }

  /** `s.split(sep)` for a non-empty separator: cut at every occurrence of `sep`,
      scanning left to right without overlap. */
  function Split(s: string, sep: string): (r: seq<string>)
    requires |sep| > 0
    ensures |r| >= 1
    ensures |r| == 1 <==> Find(s, sep).None?
    decreases |s|
  {
    FindFromSound(s, sep, 0);
    match Find(s, sep)
    case None => [s]
    case Some(i) => [s[..i]] + Split(s[i + |sep|..], sep)
  }

  /** Joining the pieces with the separator gives back the string. */
  lemma {:induction false} SplitJoins(s: string, sep: string)
    requires |sep| > 0
    ensures JoinWith(Split(s, sep), sep) == s
    decreases |s|
  {
    FindFromSound(s, sep, 0);
    match Find(s, sep)
    case None =>
    case Some(i) =>
      SplitJoins(s[i + |sep|..], sep);
      assert s == s[..i] + sep + s[i + |sep|..];
  }

  /** No piece holds the separator. */
  lemma {:induction false} SplitPiecesFree(s: string, sep: string)
    requires |sep| > 0
    ensures forall k :: 0 <= k < |Split(s, sep)| ==> Find(Split(s, sep)[k], sep).None?
    decreases |s|
  {
    FindFromSound(s, sep, 0);
    match Find(s, sep)
    case None =>
    case Some(i) =>
      PrefixBeforeFirstOccurrence(s, sep, i);
      SplitPiecesFree(s[i + |sep|..], sep);
  }

  /** Cutting `a + sep + b` where `a` cannot start an occurrence of `sep`. */
  lemma {:induction false} SplitAfterPiece(a: string, sep: string, b: string)
    requires |sep| > 0 && sep[0] !in a
    ensures Split(a + sep + b, sep) == [a] + Split(b, sep)
  {
    var s := a + sep + b;
    assert OccursAt(s, sep, |a|) by { assert s[|a|..|a| + |sep|] == sep; }
    forall j | 0 <= j < |a| ensures !OccursAt(s, sep, j) {
      assert s[j] == a[j];
    }
    FindFromSound(s, sep, 0);
    assert Find(s, sep) == Some(|a|);
    assert s[..|a|] == a;
    assert s[|a| + |sep|..] == b;
  }

  /** A string in which `sep` cannot start is a single piece. */
  lemma {:induction false} SplitWhole(a: string, sep: string)
    requires |sep| > 0 && sep[0] !in a
    ensures Split(a, sep) == [a]
  {
    forall j | 0 <= j < |a| ensures !OccursAt(a, sep, j) {}
    FindFromSound(a, sep, 0);
    assert Find(a, sep).None?;
  }

  /** Round trip: cutting the join of pieces that cannot start the separator gives
      back the pieces. */
  lemma {:induction false} SplitJoinWith(parts: seq<string>, sep: string)
    requires |sep| > 0 && |parts| >= 1
    requires forall k :: 0 <= k < |parts| ==> sep[0] !in parts[k]
    ensures Split(JoinWith(parts, sep), sep) == parts
    decreases |parts|
  {
    if |parts| == 1 {
      SplitWhole(parts[0], sep);
    } else {
      SplitJoinWith(parts[1..], sep);
      SplitAfterPiece(parts[0], sep, JoinWith(parts[1..], sep));
      assert [parts[0]] + parts[1..] == parts;
    }
  }

  /** Joining one more piece appends the separator and the piece. */
  lemma {:induction false} JoinWithSnoc(parts: seq<string>, last: string, sep: string)
    requires |parts| >= 1
    ensures JoinWith(parts + [last], sep) == JoinWith(parts, sep) + sep + last
    decreases |parts|
  {
    if |parts| == 1 {
      assert (parts + [last])[1..] == [last];
    } else {
      JoinWithSnoc(parts[1..], last, sep);
      assert (parts + [last])[1..] == parts[1..] + [last];
    }
  }

  /** `s.rfind(c)` for a single character. */
  function LastIndexOf(s: string, c: char): (r: Option<nat>)
    ensures r.Some? ==> r.value < |s| && s[r.value] == c
    ensures r.Some? ==> forall j :: r.value < j < |s| ==> s[j] != c
    ensures r.None? <==> c !in s
  {
    if |s| == 0 then None
    else if s[|s| - 1] == c then Some(|s| - 1)
    else
      var r := LastIndexOf(s[..|s| - 1], c);
      assert c in s[..|s| - 1] ==> c in s;
      assert c in s ==> c in s[..|s| - 1] by {
        if c in s {
          var k :| 0 <= k < |s| && s[k] == c;
          assert s[..|s| - 1][k] == c;
        }
      }
      r
  }

  /** The text after the last `c`, or all of `s` when there is none: both
      `s.split(c)[-1]` and `s[s.rfind(c) + 1:]`. */
  function AfterLast(s: string, c: char): (r: string)
    ensures c !in r
    ensures |r| <= |s| && r == s[|s| - |r|..]
    ensures c !in s ==> r == s
  {
    match LastIndexOf(s, c)
    case None => s
    case Some(i) => s[i + 1..]
  }

  /** The text before the last `c`, or all of `s` when there is none:
      `s.rsplit(c, 1)[0]`. */
  function BeforeLast(s: string, c: char): (r: string)
    ensures c in s ==> r + [c] + AfterLast(s, c) == s
    ensures c !in s ==> r == s
  {
    match LastIndexOf(s, c)
    case None => s
    case Some(i) =>
      assert s == s[..i] + [c] + s[i + 1..];
      s[..i]
  }

  /** `os.path.basename(p)`: everything after the last `/`. */
  function Basename(p: string): (r: string)
    ensures '/' !in r
    ensures '/' !in p ==> r == p
  {
    AfterLast(p, '/')
  }

  /** `os.path.join(a, b)` on POSIX: an absolute `b` replaces `a`; otherwise a `/`
      is inserted unless `a` is empty or already ends in one. */
  function PathJoin(a: string, b: string): string
  {
    if |b| > 0 && b[0] == '/' then b
    else if |a| == 0 || a[|a| - 1] == '/' then a + b
    else a + "/" + b
  }

  /** Joining a folder and a plain file name, and taking the basename back,
      yields the file name. */
  lemma {:induction false} BasenameOfJoin(dir: string, name: string)
    requires '/' !in name
    ensures Basename(PathJoin(dir, name)) == name
  {
    if |dir| > 0 {
      var base := if dir[|dir| - 1] == '/' then dir else dir + "/";
      var p := base + name;
      assert p == PathJoin(dir, name);
      assert p[|base| - 1] == '/';
      var i := LastIndexOf(p, '/').value;
      assert i == |base| - 1;
      assert p[i + 1..] == name;
    }
  }

  /** With the same first character, `os.path.join(dir, .)` is one-to-one. */
  lemma {:induction false} PathJoinInjective(dir: string, a: string, b: string)
    requires |a| > 0 && |b| > 0 && a[0] == b[0]
    requires PathJoin(dir, a) == PathJoin(dir, b)
    ensures a == b
  {
    if a[0] != '/' {
      var base := if |dir| == 0 || dir[|dir| - 1] == '/' then dir else dir + "/";
      assert PathJoin(dir, a) == base + a;
      assert PathJoin(dir, b) == base + b;
      assert a == (base + a)[|base|..];
      assert b == (base + b)[|base|..];
    }
  }

  function LowerChar(c: char): char
  {
    if 'A' <= c <= 'Z' then (c as int - 'A' as int + 'a' as int) as char else c
  }

  /** `str.lower()` on the ASCII letters. */
  function AsciiLower(s: string): (r: string)
    ensures |r| == |s|
    ensures forall i :: 0 <= i < |s| ==> r[i] == LowerChar(s[i])
  {
    seq(|s|, i requires 0 <= i < |s| => LowerChar(s[i]))
  }

  /** Lowering leaves no upper-case ASCII letter and is idempotent. */
  lemma {:induction false} AsciiLowerIdempotent(s: string)
    ensures forall i :: 0 <= i < |s| ==> !('A' <= AsciiLower(s)[i] <= 'Z')
    ensures AsciiLower(AsciiLower(s)) == AsciiLower(s)
  {
  }

  predicate IsDigit(c: char)
  {
    '0' <= c <= '9'
  }

  predicate AllDigits(s: string)
  {
    forall i :: 0 <= i < |s| ==> IsDigit(s[i])
  }

  function DigitValue(c: char): nat
    requires IsDigit(c)
  {
    c as int - '0' as int
  }

  function DigitChar(d: nat): (c: char)
    requires d < 10
    ensures IsDigit(c) && DigitValue(c) == d
  {
    ('0' as int + d) as char
  }

  /** The number a string of decimal digits denotes (leading zeros allowed). */
  function DigitsValue(s: string): nat
    requires AllDigits(s)
  {
    if |s| == 0 then 0 else 10 * DigitsValue(s[..|s| - 1]) + DigitValue(s[|s| - 1])
  }

  /** `str(n)` for a non-negative integer. */
  function NatToString(n: nat): (r: string)
    ensures |r| >= 1 && AllDigits(r)
    ensures DigitsValue(r) == n
    ensures r[0] == '0' ==> n == 0
  {
    if n < 10 then [DigitChar(n)]
    else
      var r := NatToString(n / 10) + [DigitChar(n % 10)];
      assert r[..|r| - 1] == NatToString(n / 10);
      r
  }

  /** A string of `k` copies of `c`. */
  function Repeat(c: char, k: nat): (r: string)
    ensures |r| == k && forall i :: 0 <= i < k ==> r[i] == c
  {
    seq(k, i => c)
  }

  /** `s.zfill(width)` for an unsigned digit string: left-pad with `0` up to
      `width`; a longer string is returned unchanged. */
  function ZFill(s: string, width: nat): (r: string)
    ensures |r| == if |s| >= width then |s| else width
    ensures r[|r| - |s|..] == s
    ensures forall i :: 0 <= i < |r| - |s| ==> r[i] == '0'
  {
    if |s| >= width then s else Repeat('0', width - |s|) + s
  }

  /** Leading zeros do not change the value of a digit string. */
  lemma {:induction false} LeadingZerosValue(k: nat, s: string)
    requires AllDigits(s)
    ensures AllDigits(Repeat('0', k) + s)
    ensures DigitsValue(Repeat('0', k) + s) == DigitsValue(s)
  {
    var z := Repeat('0', k);
    if |s| == 0 {
      assert z + s == z;
      ZerosValue(k);
    } else {
      var init := s[..|s| - 1];
      LeadingZerosValue(k, init);
      assert (z + s)[..|z + s| - 1] == z + init;
    }
  }

  lemma {:induction false} ZerosValue(k: nat)
    ensures AllDigits(Repeat('0', k)) && DigitsValue(Repeat('0', k)) == 0
  {
    if k > 0 {
      ZerosValue(k - 1);
      assert Repeat('0', k)[..k - 1] == Repeat('0', k - 1);
    }
  }

  /** `str(n).zfill(4)`, the sequence number in exported file names. */
  function Padded(n: nat): (r: string)
    ensures AllDigits(r) && |r| >= 4
    ensures DigitsValue(r) == n
    ensures n < 10000 ==> |r| == 4
  {
    var s := NatToString(n);
    FewDigits(n, 4);
    if |s| < 4 then LeadingZerosValue(4 - |s|, s); ZFill(s, 4)
    else ZFill(s, 4)
  }

  function Pow10(k: nat): (r: nat)
    ensures r >= 1
  {
    if k == 0 then 1 else 10 * Pow10(k - 1)
  }

  /** A number below 10^k has at most k digits. */
  lemma {:induction false} FewDigits(n: nat, k: nat)
    requires k >= 1
    ensures n < Pow10(k) ==> |NatToString(n)| <= k
  {
    if n >= 10 && k >= 2 {
      FewDigits(n / 10, k - 1);
    }
  }

  /** Distinct numbers get distinct padded forms. */
  lemma {:induction false} PaddedInjective(m: nat, n: nat)
    ensures Padded(m) == Padded(n) <==> m == n
  {
  }

  /** `s.endswith(suffix)`. */
  predicate EndsWith(s: string, suffix: string)
  {
    |suffix| <= |s| && s[|s| - |suffix|..] == suffix
  }

  /** The length of the run of digits at the start of `s`. */
  function LeadingDigits(s: string): (n: nat)
    ensures n <= |s| && AllDigits(s[..n])
    ensures n < |s| ==> !IsDigit(s[n])
  {
    if |s| == 0 || !IsDigit(s[0]) then 0
    else
      var n := 1 + LeadingDigits(s[1..]);
      assert forall i :: 1 <= i < n ==> s[..n][i] == s[1..][..n - 1][i - 1];
      n
  }

  /** Digits followed by a non-digit: the run is exactly the digits. */
  lemma {:induction false} LeadingDigitsOf(d: string, rest: string)
    requires AllDigits(d) && (|rest| > 0 ==> !IsDigit(rest[0]))
    ensures LeadingDigits(d + rest) == |d|
  {
    if |d| > 0 {
      LeadingDigitsOf(d[1..], rest);
      assert (d + rest)[1..] == d[1..] + rest;
    }
  }

  /** A run of digits in front of a non-digit separator is determined by the
      text: no digit string is a proper prefix of another at a separator. */
  lemma {:induction false} DigitsBeforeSeparator(d1: string, d2: string, c: char, r1: string, r2: string)
    requires AllDigits(d1) && AllDigits(d2) && !IsDigit(c)
    requires d1 + [c] + r1 == d2 + [c] + r2
    ensures d1 == d2 && r1 == r2
  {
    var s := d1 + [c] + r1;
    LeadingDigitsOf(d1, [c] + r1);
    LeadingDigitsOf(d2, [c] + r2);
    assert s == d1 + ([c] + r1) == d2 + ([c] + r2);
    assert d1 == s[..|d1|];
    assert d2 == s[..|d2|];
    assert r1 == s[|d1| + 1..];
    assert r2 == s[|d2| + 1..];
  }
}
