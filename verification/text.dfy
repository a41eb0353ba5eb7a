/** The Python string operations the cube builder relies on, written out:
    `str.split` on one character, `'_'.join`, `os.path.basename`,
    `str.replace`, slicing with clamped bounds, and `str(int)`. */
module Text {

  // ---------------------------------------------------------------------------
  // split / join on a single separator character

  /** `s.split(sep)`: the pieces between separators, including empty ones. */
  function Split(s: string, sep: char): (r: seq<string>)
    ensures |r| >= 1
    ensures forall i :: 0 <= i < |r| ==> sep !in r[i]
    ensures |r| == 1 ==> r[0] == s
  {
    if s == [] then [[]]
    else if s[0] == sep then [[]] + Split(s[1..], sep)
    else
      var rest := Split(s[1..], sep);
      [[s[0]] + rest[0]] + rest[1..]
  }

  /** `sep.join(parts)`. */
  function Join(parts: seq<string>, sep: char): string
  {
    if parts == [] then []
    else if |parts| == 1 then parts[0]
    else parts[0] + [sep] + Join(parts[1..], sep)
  }

  lemma {:induction false} SplitCons(c: char, s: string, sep: char)
    requires c != sep
    ensures Split([c] + s, sep) == [[c] + Split(s, sep)[0]] + Split(s, sep)[1..]
  {
    assert ([c] + s)[1..] == s;
  }

  lemma {:induction false} SplitPrefix(a: string, b: string, sep: char)
    requires sep !in a
    ensures Split(a + b, sep) == [a + Split(b, sep)[0]] + Split(b, sep)[1..]
    decreases |a|
  {
    if a == [] {
      assert a + b == b;
      assert a + Split(b, sep)[0] == Split(b, sep)[0];
      assert Split(b, sep) == [Split(b, sep)[0]] + Split(b, sep)[1..];
    } else {
      assert a + b == [a[0]] + (a[1..] + b);
      SplitPrefix(a[1..], b, sep);
      SplitCons(a[0], a[1..] + b, sep);
      assert [a[0]] + (a[1..] + Split(b, sep)[0]) == a + Split(b, sep)[0];
    }
  }

  /** Splitting undoes joining when no piece contains the separator. */
  lemma {:induction false} SplitJoin(parts: seq<string>, sep: char)
    requires |parts| >= 1
    requires forall i :: 0 <= i < |parts| ==> sep !in parts[i]
    ensures Split(Join(parts, sep), sep) == parts
    decreases |parts|
  {
    if |parts| == 1 {
      SplitPrefix(parts[0], [], sep);
      assert parts[0] + [] == parts[0];
    } else {
      var tail := Join(parts[1..], sep);
      SplitJoin(parts[1..], sep);
      assert parts[0] + [sep] + tail == parts[0] + ([sep] + tail);
      SplitPrefix(parts[0], [sep] + tail, sep);
      assert ([sep] + tail)[0] == sep && ([sep] + tail)[1..] == tail;
      assert Split([sep] + tail, sep) == [[]] + parts[1..];
      assert Split(parts[0] + ([sep] + tail), sep) == [parts[0] + []] + parts[1..];
      assert parts[0] + [] == parts[0];
      assert [parts[0]] + parts[1..] == parts;
    }
  }

  /** Joining undoes splitting. */
  lemma {:induction false} JoinSplit(s: string, sep: char)
    ensures Join(Split(s, sep), sep) == s
    decreases |s|
  {
    if s == [] {
    } else if s[0] == sep {
      JoinSplit(s[1..], sep);
      assert s == [] + [sep] + s[1..];
    } else {
      var rest := Split(s[1..], sep);
      JoinSplit(s[1..], sep);
      var r := Split(s, sep);
      assert r == [[s[0]] + rest[0]] + rest[1..];
      if |rest| == 1 {
        assert Join(r, sep) == [s[0]] + rest[0];
        assert s == [s[0]] + s[1..];
      } else {
        assert r[1..] == rest[1..];
        assert Join(rest, sep) == rest[0] + [sep] + Join(rest[1..], sep);
        assert Join(r, sep) == [s[0]] + rest[0] + [sep] + Join(rest[1..], sep);
        assert s == [s[0]] + s[1..];
      }
    }
  }

  // ---------------------------------------------------------------------------
  // os.path.basename

  /** `os.path.basename(s)`: everything after the last '/'. */
  function Basename(s: string): (r: string)
    ensures '/' !in r
    ensures '/' !in s ==> r == s
  {
    if s == [] then []
    else if s[|s| - 1] == '/' then []
    else Basename(s[..|s| - 1]) + [s[|s| - 1]]
  }

  lemma {:induction false} BasenameAfterSlash(dir: string, name: string)
    requires '/' !in name
    ensures Basename(dir + "/" + name) == name
    decreases |name|
  {
    var s := dir + "/" + name;
    if name == [] {
      assert s[|s| - 1] == '/';
    } else {
      var init := name[..|name| - 1];
      var last := name[|name| - 1];
      assert last != '/';
      assert s[|s| - 1] == last;
      assert s[..|s| - 1] == dir + "/" + init;
      BasenameAfterSlash(dir, init);
      assert Basename(s) == Basename(dir + "/" + init) + [last];
      assert name == init + [last];
    }
  }

  // ---------------------------------------------------------------------------
  // str.replace

  predicate StartsWith(s: string, p: string) {
    |p| <= |s| && s[..|p|] == p
  }

  /** `s.replace(old, new)` for a non-empty `old`: every occurrence, scanning
      left to right without overlaps, is replaced. */
  function Replace(s: string, pat: string, rep: string): string
    requires |pat| > 0
    decreases |s|
  {
    if s == [] then []
    else if StartsWith(s, pat) then rep + Replace(s[|pat|..], pat, rep)
    else [s[0]] + Replace(s[1..], pat, rep)
  }

  /** No occurrence of `p` starts at an index in [lo, |s|). */
  predicate NoOccurrenceFrom(s: string, p: string, lo: nat) {
    forall i :: lo <= i < |s| ==> !StartsWith(s[i..], p)
  }

  lemma {:induction false} ReplaceNone(s: string, pat: string, rep: string)
    requires |pat| > 0
    requires NoOccurrenceFrom(s, pat, 0)
    ensures Replace(s, pat, rep) == s
    decreases |s|
  {
    if s != [] {
      assert !StartsWith(s[0..], pat);
      assert s[0..] == s;
      forall i | 0 <= i < |s[1..]| ensures !StartsWith(s[1..][i..], pat) {
        assert s[1..][i..] == s[i + 1..];
      }
      ReplaceNone(s[1..], pat, rep);
      assert s == [s[0]] + s[1..];
    }
  }

  lemma {:induction false} ReplaceSkip(a: string, b: string, pat: string, rep: string)
    requires |pat| > 0
    requires forall i :: 0 <= i < |a| ==> !StartsWith((a + b)[i..], pat)
    ensures Replace(a + b, pat, rep) == a + Replace(b, pat, rep)
    decreases |a|
  {
    if a != [] {
      assert (a + b)[0..] == a + b;
      assert (a + b)[1..] == a[1..] + b;
      forall i | 0 <= i < |a[1..]| ensures !StartsWith((a[1..] + b)[i..], pat) {
        assert (a[1..] + b)[i..] == (a + b)[i + 1..];
      }
      assert !StartsWith(a + b, pat);
      assert (a + b) != [];
      assert (a + b)[0] == a[0];
      assert Replace(a + b, pat, rep) == [a[0]] + Replace(a[1..] + b, pat, rep);
      ReplaceSkip(a[1..], b, pat, rep);
      assert a + Replace(b, pat, rep) == [a[0]] + (a[1..] + Replace(b, pat, rep));
    } else {
      assert a + b == b;
      assert a + Replace(b, pat, rep) == Replace(b, pat, rep);
    }
  }

  lemma ReplaceAtStart(p: string, b: string, rep: string)
    requires |p| > 0
    ensures Replace(p + b, p, rep) == rep + Replace(b, p, rep)
  {
    assert (p + b)[..|p|] == p;
    assert (p + b)[|p|..] == b;
  }

  /** A single occurrence of `pat` between an occurrence-free prefix and an
      occurrence-free suffix is the only thing replaced. */
  lemma ReplaceOnce(a: string, pat: string, b: string, rep: string)
    requires |pat| > 0
    requires forall i :: 0 <= i < |a| ==> !StartsWith((a + (pat + b))[i..], pat)
    requires NoOccurrenceFrom(b, pat, 0)
    ensures Replace(a + pat + b, pat, rep) == a + rep + b
  {
    assert a + pat + b == a + (pat + b);
    ReplaceSkip(a, pat + b, pat, rep);
    ReplaceAtStart(pat, b, rep);
    ReplaceNone(b, pat, rep);
    assert a + (rep + b) == a + rep + b;
  }

  /** The same, with a prefix that cannot start an occurrence. */
  lemma ReplaceOnceAfter(pre: string, a: string, pat: string, b: string, rep: string)
    requires |pat| > 0 && pat[0] !in pre
    requires forall i :: 0 <= i < |a| ==> !StartsWith((a + pat + b)[i..], pat)
    requires NoOccurrenceFrom(b, pat, 0)
    ensures Replace(pre + a + pat + b, pat, rep) == pre + a + rep + b
  {
    NoStartBefore(pre, a, pat, b);
    ReplaceOnce(pre + a, pat, b, rep);
  }

  lemma NoStartBefore(pre: string, a: string, pat: string, b: string)
    requires |pat| > 0 && pat[0] !in pre
    requires forall i :: 0 <= i < |a| ==> !StartsWith((a + pat + b)[i..], pat)
    ensures forall i :: 0 <= i < |pre + a| ==> !StartsWith((pre + a + (pat + b))[i..], pat)
  {
    var t := a + pat + b;
    assert pre + a + (pat + b) == pre + t;
    forall i | 0 <= i < |pre + a| ensures !StartsWith((pre + t)[i..], pat) {
      if i < |pre| {
        assert (pre + t)[i..][0] == pre[i];
      } else {
        assert (pre + t)[i..] == t[i - |pre|..];
      }
    }
  }

  // ---------------------------------------------------------------------------
  // slicing

  /** Python's `s[i:j]` for non-negative bounds: out-of-range bounds are clamped. */
  function Slice(s: string, i: nat, j: nat): (r: string)
    ensures j <= |s| && i <= j ==> r == s[i..j]
    ensures |r| <= |s|
  {
    var hi := if j <= |s| then j else |s|;
    var lo := if i <= hi then i else hi;
    s[lo..hi]
  }

  // ---------------------------------------------------------------------------
  // digits and str(int)

  predicate IsDigit(c: char) {
    '0' <= c <= '9'
  }

  function DigitValue(c: char): (d: nat)
    requires IsDigit(c)
    ensures d < 10
  {
    (c - '0') as nat
  }

  function DigitChar(d: nat): (c: char)
    requires d < 10
    ensures IsDigit(c) && DigitValue(c) == d
  {
    ('0' as int + d) as char
  }

  predicate AllDigits(s: string) {
    forall i :: 0 <= i < |s| ==> IsDigit(s[i])
  }

  /** The value of a string of decimal digits. */
  function DigitsValue(s: string): (n: nat)
    requires AllDigits(s)
  {
    if s == [] then 0
    else 10 * DigitsValue(s[..|s| - 1]) + DigitValue(s[|s| - 1])
  }

  /** The decimal digits of `n` without leading zeros. */
  function NatString(n: nat): (s: string)
    ensures |s| >= 1 && AllDigits(s)
    ensures DigitsValue(s) == n
    ensures |s| > 1 ==> s[0] != '0'
  {
    if n < 10 then [DigitChar(n)]
    else
      var init := NatString(n / 10);
      var s := init + [DigitChar(n % 10)];
      assert s[..|s| - 1] == init;
      s
  }

  /** `str(n)` for a Python int. */
  function DecimalString(n: int): string {
    if n < 0 then "-" + NatString(-n) else NatString(n)
  }

  /** `str(int)` is injective, so comparing the decimal strings of two
      integers is the same as comparing the integers. */
  lemma DecimalStringInjective(a: int, b: int)
    ensures DecimalString(a) == DecimalString(b) <==> a == b
  {
    if DecimalString(a) == DecimalString(b) {
      if a < 0 && b < 0 {
        assert NatString(-a) == DecimalString(a)[1..];
      }
    }
  }
}
