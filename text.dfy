/**
 * The handful of Python string operations the downloader relies on, written
 * out: `str.split`, `str.join`, `str.rstrip`, `os.path.basename` (POSIX form)
 * and `str(int)`. Each comes with the property that pins it down, so that the
 * modules above can reason about lines and paths without re-deriving them.
 */
module Text {

  /** Python 2's ASCII whitespace: space, tab, LF, CR, VT and FF. */
  const Whitespace: set<char> := {' ', '\t', '\n', '\r', 11 as char, 12 as char}

  /** No character of `t` is a separator. */
  predicate Free(t: string, seps: set<char>) {
    forall j :: 0 <= j < |t| ==> t[j] !in seps
  }

  /**
   * `s.split(sep)` for one-character separators: the pieces between
   * consecutive separators, empty pieces included (so there is always one
   * more piece than there are separators).
   */
  function SplitOn(s: string, seps: set<char>): (r: seq<string>)
    ensures |r| >= 1
    ensures forall i :: 0 <= i < |r| ==> Free(r[i], seps)
    decreases |s|
  {
    if s == [] then [""]
    else
      var rest := SplitOn(s[1..], seps);
      if s[0] in seps then [""] + rest
      else [[s[0]] + rest[0]] + rest[1..]
  }

  /** `sep.join(parts)`. */
  function Join(parts: seq<string>, sep: char): string
    decreases |parts|
  {
    if |parts| == 0 then ""
    else if |parts| == 1 then parts[0]
    else parts[0] + [sep] + Join(parts[1..], sep)
  }

  /** The list comprehension `[t for t in parts if t != '']`. */
  function NonEmpty(parts: seq<string>): (r: seq<string>)
    ensures |r| <= |parts|
    ensures forall i :: 0 <= i < |r| ==> r[i] != "" && r[i] in parts
    decreases |parts|
  {
    if parts == [] then []
    else if parts[0] == "" then NonEmpty(parts[1..])
    else [parts[0]] + NonEmpty(parts[1..])
  }

  /** The non-empty pieces of `s` between separators. */
  function Fields(s: string, seps: set<char>): (r: seq<string>)
    ensures forall i :: 0 <= i < |r| ==> r[i] != "" && Free(r[i], seps)
  {
    NonEmpty(SplitOn(s, seps))
  }

  /** Python's `str.split()` without arguments: the words between runs of whitespace. */
  function Words(s: string): seq<string> {
    Fields(s, Whitespace)
  }

  /** `s.rstrip()`: `s` without its trailing whitespace. */
  function RStrip(s: string): (r: string)
    ensures r <= s
    ensures r == [] || r[|r| - 1] !in Whitespace
    ensures forall i :: |r| <= i < |s| ==> s[i] in Whitespace
    decreases |s|
  {
    if s == [] then []
    else if s[|s| - 1] in Whitespace then RStrip(s[..|s| - 1])
    else s
  }

  /** `os.path.basename(p)` on POSIX: the part of `p` after its last '/' (see `BasenameSuffix`). */
  function Basename(p: string): (r: string)
    ensures |r| <= |p|
    decreases |p|
  {
    if p == [] then []
    else if p[|p| - 1] == '/' then []
    else Basename(p[..|p| - 1]) + [p[|p| - 1]]
  }

  /** The base name is a suffix free of '/', and the character before it, if any, is '/'. */
  lemma {:induction false} BasenameSuffix(p: string)
    ensures var r := Basename(p);
            && '/' !in r && p[|p| - |r|..] == r
            && (|r| < |p| ==> p[|p| - |r| - 1] == '/')
    decreases |p|
  {
    if p != [] && p[|p| - 1] != '/' {
      var init := p[..|p| - 1];
      BasenameSuffix(init);
      var b := Basename(init);
      assert p[|p| - |b| - 1..] == init[|init| - |b|..] + [p[|p| - 1]];
    }
  }

  function DigitChar(d: nat): (c: char)
    requires d < 10
    ensures '0' <= c <= '9' && c as int - '0' as int == d
  {
    ('0' as int + d) as char
  }

  /** `str(n)` for a natural number: its decimal digits, most significant first. */
  function NatToString(n: nat): (r: string)
    ensures |r| >= 1
    ensures forall i :: 0 <= i < |r| ==> '0' <= r[i] <= '9'
  {
    if n < 10 then [DigitChar(n)] else NatToString(n / 10) + [DigitChar(n % 10)]
  }

  /** `str(i)` for an integer: a '-' in front of the digits of a negative one. */
  function IntToString(i: int): (r: string)
    ensures |r| >= 1
    ensures (r[0] == '-') == (i < 0)
  {
    if i < 0 then "-" + NatToString(-i) else NatToString(i)
  }

  /** The number a string of decimal digits denotes (`int(s)` for such strings). */
  function DecimalValue(s: string): nat
    requires forall i :: 0 <= i < |s| ==> '0' <= s[i] <= '9'
    decreases |s|
  {
    if s == [] then 0 else 10 * DecimalValue(s[..|s| - 1]) + (s[|s| - 1] as int - '0' as int)
  }

  /** Reading the digits back gives the number: `int(str(n)) == n`. */
  lemma {:induction false} DecimalRoundTrip(n: nat)
    ensures DecimalValue(NatToString(n)) == n
  {
    var r := NatToString(n);
    if n >= 10 {
      var hi := NatToString(n / 10);
      DecimalRoundTrip(n / 10);
      assert r == hi + [DigitChar(n % 10)];
      assert r[..|r| - 1] == hi;
      assert DecimalValue(r) == 10 * DecimalValue(hi) + (n % 10);
    } else {
      assert r == [DigitChar(n)];
      assert r[..0] == [];
    }
  }

  /** The integer a `str(int)` rendering denotes (`int(s)`). */
  function IntValue(s: string): int
    requires |s| >= 1
    requires s[0] == '-' ==> forall i :: 1 <= i < |s| ==> '0' <= s[i] <= '9'
    requires s[0] != '-' ==> forall i :: 0 <= i < |s| ==> '0' <= s[i] <= '9'
  {
    var magnitude: int := if s[0] == '-' then DecimalValue(s[1..]) else DecimalValue(s);
    if s[0] == '-' then -magnitude else magnitude
  }

  /** `int(str(i)) == i` for every integer. */
  lemma IntRoundTrip(i: int)
    ensures var r := IntToString(i);
            (forall k :: 1 <= k < |r| ==> '0' <= r[k] <= '9') && IntValue(r) == i
  {
    var r := IntToString(i);
    if i < 0 {
      assert r[1..] == NatToString(-i);
      DecimalRoundTrip(-i);
    } else {
      DecimalRoundTrip(i);
    }
  }

  /** Joining the pieces of a split with the same separator restores the string. */
  lemma {:induction false} JoinSplit(s: string, sep: char)
    ensures Join(SplitOn(s, {sep}), sep) == s
    decreases |s|
  {
    if s != [] {
      var rest := SplitOn(s[1..], {sep});
      JoinSplit(s[1..], sep);
      if s[0] == sep {
        assert ([""] + rest)[1..] == rest;
      } else {
        var r := [[s[0]] + rest[0]] + rest[1..];
        if |rest| > 1 {
          assert r[1..] == rest[1..];
        }
      }
    }
  }

  /** Splitting a separator-free prefix in front of `t` only lengthens the first piece. */
  lemma {:induction false} SplitFreePrefix(a: string, t: string, seps: set<char>)
    requires Free(a, seps)
    ensures SplitOn(a + t, seps) == [a + SplitOn(t, seps)[0]] + SplitOn(t, seps)[1..]
    decreases |a|
  {
    if a != [] {
      assert (a + t)[1..] == a[1..] + t;
      assert Free(a[1..], seps) by {
        forall j | 0 <= j < |a[1..]| ensures a[1..][j] !in seps {
          assert a[1..][j] == a[j + 1];
        }
      }
      SplitFreePrefix(a[1..], t, seps);
      var x := SplitOn(t, seps);
      var rest := SplitOn((a + t)[1..], seps);
      assert rest == [a[1..] + x[0]] + x[1..];
      assert (a + t)[0] == a[0] && a[0] !in seps;
      assert SplitOn(a + t, seps) == [[a[0]] + rest[0]] + rest[1..];
      assert rest[0] == a[1..] + x[0] && rest[1..] == x[1..];
      assert [a[0]] + (a[1..] + x[0]) == a + x[0];
    } else {
      var x := SplitOn(t, seps);
      assert a + t == t && a + x[0] == x[0];
      assert x == [x[0]] + x[1..];
    }
  }

  /** Splitting a join of separator-free pieces gives the pieces back. */
  lemma {:induction false} SplitJoin(parts: seq<string>, sep: char)
    requires |parts| >= 1
    requires forall i :: 0 <= i < |parts| ==> Free(parts[i], {sep})
    ensures SplitOn(Join(parts, sep), {sep}) == parts
    decreases |parts|
  {
    if |parts| == 1 {
      SplitFreePrefix(parts[0], "", {sep});
      assert parts[0] + "" == parts[0];
    } else {
      var tail := Join(parts[1..], sep);
      SplitJoin(parts[1..], sep);
      assert Join(parts, sep) == parts[0] + ([sep] + tail);
      SplitFreePrefix(parts[0], [sep] + tail, {sep});
      assert ([sep] + tail)[0] == sep && ([sep] + tail)[1..] == tail;
      var y := SplitOn([sep] + tail, {sep});
      assert y == [""] + parts[1..];
      assert y[0] == "" && y[1..] == parts[1..];
      assert parts[0] + "" == parts[0];
      assert parts == [parts[0]] + parts[1..];
    }
  }

  /** Filtering out empty pieces leaves a list without empty pieces unchanged. */
  lemma {:induction false} NonEmptyKeeps(parts: seq<string>)
    requires forall i :: 0 <= i < |parts| ==> parts[i] != ""
    ensures NonEmpty(parts) == parts
    decreases |parts|
  {
    if parts != [] {
      NonEmptyKeeps(parts[1..]);
      assert parts == [parts[0]] + parts[1..];
    }
  }

  /**
   * Tokenising a line whose words are non-empty and separator-free, joined
   * by single separators, gives the words back.
   */
  lemma FieldsJoin(words: seq<string>, sep: char)
    requires forall i :: 0 <= i < |words| ==> words[i] != "" && Free(words[i], {sep})
    ensures Fields(Join(words, sep), {sep}) == words
  {
    if words == [] {
      assert SplitOn("", {sep}) == [""];
    } else {
      SplitJoin(words, sep);
      NonEmptyKeeps(words);
    }
  }

  /** A string has no fields exactly when every character of it is a separator. */
  lemma {:induction false} FieldsBlank(s: string, seps: set<char>)
    ensures Fields(s, seps) == [] <==> forall i :: 0 <= i < |s| ==> s[i] in seps
    decreases |s|
  {
    if s != [] {
      FieldsBlank(s[1..], seps);
      var rest := SplitOn(s[1..], seps);
      if s[0] in seps {
        assert SplitOn(s, seps)[1..] == rest;
        assert Fields(s, seps) == Fields(s[1..], seps);
        assert forall i :: 0 <= i < |s[1..]| ==> s[1..][i] == s[i + 1];
      } else {
        assert SplitOn(s, seps)[0] != "";
      }
    }
  }
}
