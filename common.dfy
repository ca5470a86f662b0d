/** Value types and string helpers standing in for the Python built-ins the
    two services rely on: None, truthiness, `str.split`, `str.join`,
    `str.lower`, `str.replace`, `str.rsplit` and f-string formatting of ints. */
module Common {

  datatype Option<T> = None | Some(value: T) {
    function GetOr(default: T): T {
      if Some? then value else default
    }
  }

  /** One element of a Python `bytes` value. */
  type byte = b: int | 0 <= b < 256

  /** Python truthiness of a value that is a string or None. */
  predicate Truthy(s: Option<string>) {
    s.Some? && s.value != ""
  }

  /** Python truthiness of a value that is an integer or None. */
  predicate NonZero(n: Option<int>) {
    n.Some? && n.value != 0
  }

  /** `s or fallback` for an optional string. */
  function OrElse(s: Option<string>, fallback: string): string {
    if Truthy(s) then s.value else fallback
  }

  /** `f"{s}"` for an optional string: None prints as "None". */
  function ShowOption(s: Option<string>): string {
    if s.Some? then s.value else "None"
  }

  predicate IsDigit(c: char) {
    '0' <= c <= '9'
  }

  function DigitChar(d: nat): (c: char)
    requires d < 10
    ensures IsDigit(c)
  {
    "0123456789"[d]
  }

  /** Decimal rendering of a natural number, as `f"{n}"` produces it. */
  function NatToString(n: nat): (r: string)
    ensures |r| >= 1
    ensures forall i :: 0 <= i < |r| ==> IsDigit(r[i])
  {
    if n < 10 then [DigitChar(n)] else NatToString(n / 10) + [DigitChar(n % 10)]
  }

  predicate StartsWith(s: string, prefix: string) {
    |prefix| <= |s| && s[..|prefix|] == prefix
  }

  predicate EndsWith(s: string, suffix: string) {
    |suffix| <= |s| && s[|s| - |suffix|..] == suffix
  }

  predicate Contains(s: string, c: char) {
    exists i :: 0 <= i < |s| && s[i] == c
  }

  /** `s.split(sep)` for a one-character separator. */
  function Split(s: string, sep: char): (parts: seq<string>)
    ensures |parts| >= 1
    ensures forall k, i :: 0 <= k < |parts| && 0 <= i < |parts[k]| ==> parts[k][i] != sep
  {
    if s == [] then [[]]
    else
      var rest := Split(s[1..], sep);
      if s[0] == sep then [[]] + rest
      else [[s[0]] + rest[0]] + rest[1..]
  }

  /** `sep.join(parts)` for a one-character separator. */
  function Join(parts: seq<string>, sep: char): string {
    if parts == [] then []
    else if |parts| == 1 then parts[0]
    else parts[0] + [sep] + Join(parts[1..], sep)
  }

  /** Joining the pieces of a split gives back the original string. */
  lemma {:induction false} JoinSplit(s: string, sep: char)
    ensures Join(Split(s, sep), sep) == s
  {
    if s != [] {
      var rest := Split(s[1..], sep);
      JoinSplit(s[1..], sep);
      if s[0] == sep {
        assert Split(s, sep) == [[]] + rest;
        assert ([[]] + rest)[1..] == rest;
      } else {
        var parts := Split(s, sep);
        assert parts == [[s[0]] + rest[0]] + rest[1..];
        if |rest| > 1 {
          assert parts[1..] == rest[1..];
          assert Join(rest, sep) == rest[0] + [sep] + Join(rest[1..], sep);
        }
      }
    }
  }

  /** A string without the separator splits into itself alone. */
  lemma {:induction false} SplitWithoutSep(s: string, sep: char)
    requires !Contains(s, sep)
    ensures Split(s, sep) == [s]
  {
    if s != [] {
      assert !Contains(s[1..], sep) by {
        forall i | 0 <= i < |s[1..]| ensures s[1..][i] != sep {
          assert s[1..][i] == s[i + 1];
        }
      }
      SplitWithoutSep(s[1..], sep);
      assert s[0] != sep;
      assert [s[0]] + s[1..] == s;
    }
  }

  /** A piece without the separator, then the separator: the split starts
      with that piece. */
  lemma {:induction false} SplitAfterPiece(a: string, b: string, sep: char)
    requires !Contains(a, sep)
    ensures Split(a + [sep] + b, sep) == [a] + Split(b, sep)
  {
    var s := a + [sep] + b;
    if a == [] {
      assert s == [sep] + b && s[1..] == b;
    } else {
      assert s[1..] == a[1..] + [sep] + b;
      assert !Contains(a[1..], sep) by {
        forall i | 0 <= i < |a[1..]| ensures a[1..][i] != sep {
          assert a[1..][i] == a[i + 1];
        }
      }
      SplitAfterPiece(a[1..], b, sep);
      assert s[0] == a[0] && a[0] != sep;
      assert [a[0]] + a[1..] == a;
    }
  }

  /** `n` copies of `x`. */
  function Repeat<T>(x: T, n: nat): (r: seq<T>)
    ensures |r| == n && forall i :: 0 <= i < n ==> r[i] == x
  {
    if n == 0 then [] else [x] + Repeat(x, n - 1)
  }

  /** `n` leading separators split off `n` empty pieces. */
  lemma {:induction false} SplitLeadingSeps(n: nat, b: string, sep: char)
    ensures Split(Repeat(sep, n) + b, sep) == Repeat("", n) + Split(b, sep)
  {
    if n > 0 {
      var rest := Repeat(sep, n - 1) + b;
      assert Repeat(sep, n) + b == [] + [sep] + rest;
      SplitAfterPiece([], rest, sep);
      SplitLeadingSeps(n - 1, b, sep);
      assert Repeat("", n) + Split(b, sep) == [[]] + (Repeat("", n - 1) + Split(b, sep));
    } else {
      assert Repeat(sep, n) + b == b;
      assert Repeat("", n) + Split(b, sep) == Split(b, sep);
    }
  }

  /** The last piece of `s.split(sep)`, that is `s.split(sep)[-1]`. */
  function LastSegment(s: string, sep: char): string {
    var parts := Split(s, sep);
    parts[|parts| - 1]
  }

  /** `s.split(sep)[-1]` is the part of `s` after its last separator. */
  lemma {:induction false} LastSegmentIsSuffix(s: string, sep: char)
    ensures EndsWith(s, LastSegment(s, sep))
    ensures !Contains(LastSegment(s, sep), sep)
    ensures !Contains(s, sep) ==> LastSegment(s, sep) == s
  {
    var parts := Split(s, sep);
    var last := parts[|parts| - 1];
    JoinSplit(s, sep);
    JoinEndsWithLast(parts, sep);
    assert EndsWith(s, last);
    forall i | 0 <= i < |last| ensures last[i] != sep {
    }
    if !Contains(s, sep) {
      SplitWithoutSep(s, sep);
    }
  }

  lemma {:induction false} JoinEndsWithLast(parts: seq<string>, sep: char)
    requires |parts| >= 1
    ensures EndsWith(Join(parts, sep), parts[|parts| - 1])
  {
    if |parts| > 1 {
      JoinEndsWithLast(parts[1..], sep);
      var tail := Join(parts[1..], sep);
      var whole := parts[0] + [sep] + tail;
      assert whole[|whole| - |tail|..] == tail;
    }
  }

  /** Index of the last occurrence of `c` in `s`, or -1. */
  function LastIndexOf(s: string, c: char): (r: int)
    ensures -1 <= r < |s|
    ensures r >= 0 ==> s[r] == c
    ensures forall i :: r < i < |s| ==> s[i] != c
  {
    if s == [] then -1
    else if s[|s| - 1] == c then |s| - 1
    else LastIndexOf(s[..|s| - 1], c)
  }

  /** `s.rsplit(c, 1)[0]`: everything before the last `c`, or all of `s`. */
  function BeforeLast(s: string, c: char): (r: string)
    ensures StartsWith(s, r)
  {
    var k := LastIndexOf(s, c);
    if k < 0 then s else s[..k]
  }

  function LowerChar(c: char): char {
    if 'A' <= c <= 'Z' then (c as int + 32) as char else c
  }

  /** `s.lower()` on the ASCII letters. */
  function ToLower(s: string): (r: string)
    ensures |r| == |s|
    ensures forall i :: 0 <= i < |s| ==> r[i] == LowerChar(s[i])
  {
    seq(|s|, i requires 0 <= i < |s| => LowerChar(s[i]))
  }

  /** `os.path.splitext(name)[1]`: from the last `.` of the last path
      component, unless every character before that dot in the component
      is a dot too; otherwise "". */
  function Extension(name: string): (ext: string)
    ensures ext == [] || (ext[0] == '.' && EndsWith(name, ext))
    ensures forall i :: 0 < i < |ext| ==> ext[i] != '.' && ext[i] != '/'
  {
    var slash := LastIndexOf(name, '/');
    var dot := LastIndexOf(name, '.');
    if dot > slash && exists i :: slash + 1 <= i < dot && name[i] != '.' then
      assert dot >= 0;
      assert EndsWith(name, name[dot..]);
      name[dot..]
    else []
  }

  /** A file name whose last component has a character other than a dot
      before its final `.suffix` has that suffix as its extension. */
  lemma {:induction false} ExtensionOfName(stem: string, suffix: string)
    requires exists i :: 0 <= i < |stem| && stem[i] != '.' && stem[i] != '/' && forall j :: i < j < |stem| ==> stem[j] != '/'
    requires forall i :: 0 <= i < |suffix| ==> suffix[i] != '.' && suffix[i] != '/'
    ensures Extension(stem + "." + suffix) == "." + suffix
  {
    var name := stem + "." + suffix;
    var i :| 0 <= i < |stem| && stem[i] != '.' && stem[i] != '/' && forall j :: i < j < |stem| ==> stem[j] != '/';
    var dot := LastIndexOf(name, '.');
    var slash := LastIndexOf(name, '/');
    assert name[|stem|] == '.';
    assert dot == |stem| by {
      forall j | |stem| < j < |name| ensures name[j] != '.' {
        assert name[j] == suffix[j - |stem| - 1];
      }
    }
    assert slash < i by {
      forall j | i <= j < |name| ensures name[j] != '/' {
        if j > |stem| {
          assert name[j] == suffix[j - |stem| - 1];
        } else if j < |stem| {
          assert name[j] == stem[j];
        }
      }
    }
    assert name[i] == stem[i];
    assert name[dot..] == "." + suffix;
  }

  /** `s.replace(pattern, replacement)`: every non-overlapping occurrence,
      scanned from the left. */
  function ReplaceAll(s: string, pattern: string, replacement: string): string
    requires pattern != []
    decreases |s|
  {
    if |s| < |pattern| then s
    else if s[..|pattern|] == pattern then replacement + ReplaceAll(s[|pattern|..], pattern, replacement)
    else [s[0]] + ReplaceAll(s[1..], pattern, replacement)
  }

  /** A string without one of the pattern's characters has no occurrence
      to replace. */
  lemma {:induction false} ReplaceAllAbsent(s: string, pattern: string, replacement: string, k: nat)
    requires pattern != [] && k < |pattern| && !Contains(s, pattern[k])
    ensures ReplaceAll(s, pattern, replacement) == s
    decreases |s|
  {
    if |s| >= |pattern| {
      assert s[..|pattern|][k] == s[k];
      assert !Contains(s[1..], pattern[k]) by {
        forall i | 0 <= i < |s[1..]| ensures s[1..][i] != pattern[k] {
          assert s[1..][i] == s[i + 1];
        }
      }
      ReplaceAllAbsent(s[1..], pattern, replacement, k);
      assert [s[0]] + s[1..] == s;
    }
  }

  /** A string holding the separator splits into at least two pieces. */
  lemma {:induction false} SplitHasTwoPieces(s: string, sep: char)
    requires Contains(s, sep)
    ensures |Split(s, sep)| >= 2
  {
    if s[0] != sep {
      assert Contains(s[1..], sep) by {
        var i :| 0 <= i < |s| && s[i] == sep;
        assert s[1..][i - 1] == sep;
      }
      SplitHasTwoPieces(s[1..], sep);
    }
  }
}
