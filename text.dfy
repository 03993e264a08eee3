/** String helpers with JavaScript's meaning: `String(n)` for integers,
    `s.split(c)` / `parts.join(c)` for a one-character separator, and
    `s.startsWith(p)`.  Each comes with the inverse or characterisation that
    the rest of the model relies on. */
module Text {
  import opened Wrappers

  predicate IsDigit(c: char) { '0' <= c <= '9' }

  function DigitChar(d: nat): (c: char)
    requires d < 10
    ensures IsDigit(c)
  {
    ('0' as int + d) as char
  }

  function DigitValue(c: char): (d: nat)
    requires IsDigit(c)
    ensures d < 10 && DigitChar(d) == c
  {
    c as int - '0' as int
  }

  /** Decimal rendering of a natural number, as `String(n)` gives it. */
  function NatToString(n: nat): (s: string)
    ensures |s| > 0
    ensures forall i :: 0 <= i < |s| ==> IsDigit(s[i])
  {
    if n < 10 then [DigitChar(n)] else NatToString(n / 10) + [DigitChar(n % 10)]
  }

  /** Decimal rendering of an integer: a leading '-' for negatives. */
  function IntToString(n: int): (s: string)
  {
    if n < 0 then "-" + NatToString(-n) else NatToString(n)
  }

  /** Reads a non-empty run of decimal digits back into its value. */
  function ParseNat(s: string): Option<nat>
  {
    if |s| == 0 || !IsDigit(s[|s| - 1]) then None
    else if |s| == 1 then Some(DigitValue(s[0]))
    else match ParseNat(s[..|s| - 1])
      case None => None
      case Some(m) => Some(m * 10 + DigitValue(s[|s| - 1]))
  }

  /** Reads an optionally negated run of digits. */
  function ParseInt(s: string): Option<int>
  {
    if |s| > 0 && s[0] == '-' then
      match ParseNat(s[1..])
      case None => None
      case Some(m) => Some(-(m as int))
    else match ParseNat(s)
      case None => None
      case Some(m) => Some(m)
  }

  lemma {:induction false} ParseNatToString(n: nat)
    ensures ParseNat(NatToString(n)) == Some(n)
  {
    if n >= 10 {
      ParseNatToString(n / 10);
      var s := NatToString(n);
      assert s[..|s| - 1] == NatToString(n / 10);
    }
  }

  /** `String(n)` loses nothing: the integer can be read back from its text. */
  lemma ParseIntToString(n: int)
    ensures ParseInt(IntToString(n)) == Some(n)
  {
    if n < 0 {
      ParseNatToString(-n);
      assert IntToString(n)[1..] == NatToString(-n);
    } else {
      ParseNatToString(n);
    }
  }

  /** Renderings of distinct integers differ. */
  lemma IntToStringInjective(m: int, n: int)
    requires IntToString(m) == IntToString(n)
    ensures m == n
  {
    ParseIntToString(m);
    ParseIntToString(n);
  }

  predicate StartsWith(s: string, prefix: string)
  {
    |prefix| <= |s| && s[..|prefix|] == prefix
  }

  predicate EndsWith(s: string, suffix: string)
  {
    |suffix| <= |s| && s[|s| - |suffix|..] == suffix
  }

  /** Two prefixes that disagree at a common position cannot both start `s`. */
  lemma DisagreeingPrefixes(s: string, a: string, b: string, k: nat)
    requires k < |a| && k < |b| && a[k] != b[k]
    requires StartsWith(s, a)
    ensures !StartsWith(s, b)
  {
  }

  /** A string that does not start with `q` does not start with any longer
      prefix `p` that itself starts with `q`. */
  lemma NotStartsWithLonger(s: string, p: string, q: string)
    requires StartsWith(p, q) && !StartsWith(s, q)
    ensures !StartsWith(s, p)
  {
    if |s| >= |p| {
      assert s[..|p|][..|q|] == s[..|q|];
    }
  }

  // ---------------------------------------------------------------------
  // split / join on a one-character separator

  /** `s.split(c)`: the maximal separator-free pieces, always at least one. */
  function Split(s: string, c: char): (parts: seq<string>)
    ensures |parts| >= 1
    ensures forall i :: 0 <= i < |parts| ==> c !in parts[i]
  {
    if |s| == 0 then [""]
    else
      var rest := Split(s[1..], c);
      if s[0] == c then [""] + rest else [[s[0]] + rest[0]] + rest[1..]
  }

  /** `parts.join(c)`. */
  function Join(parts: seq<string>, c: char): string
  {
    if |parts| == 0 then ""
    else if |parts| == 1 then parts[0]
    else parts[0] + [c] + Join(parts[1..], c)
  }

  /** Joining the pieces of a split gives back the string. */
  lemma {:induction false} JoinSplit(s: string, c: char)
    ensures Join(Split(s, c), c) == s
  {
    if |s| > 0 {
      var rest := Split(s[1..], c);
      JoinSplit(s[1..], c);
      if s[0] == c {
        assert Split(s, c) == [""] + rest;
        assert s == [c] + s[1..];
      } else {
        var parts := Split(s, c);
        assert parts == [[s[0]] + rest[0]] + rest[1..];
        if |rest| == 1 {
          assert s == [s[0]] + s[1..];
        } else {
          assert parts[1..] == rest[1..];
          assert Join(rest, c) == rest[0] + [c] + Join(rest[1..], c);
          assert s == [s[0]] + s[1..];
        }
      }
    }
  }

  /** Splitting a join of separator-free pieces gives back the pieces. */
  lemma {:induction false} SplitJoin(parts: seq<string>, c: char)
    requires |parts| >= 1
    requires forall i :: 0 <= i < |parts| ==> c !in parts[i]
    ensures Split(Join(parts, c), c) == parts
  {
    if |parts| == 1 {
      SplitNoSeparator(parts[0], c);
    } else {
      SplitJoin(parts[1..], c);
      SplitPrefix(parts[0], [c] + Join(parts[1..], c), c);
      assert parts[0] + [c] + Join(parts[1..], c) == parts[0] + ([c] + Join(parts[1..], c));
      assert ([c] + Join(parts[1..], c))[1..] == Join(parts[1..], c);
      assert parts == [parts[0]] + parts[1..];
    }
  }

  lemma {:induction false} SplitNoSeparator(s: string, c: char)
    requires c !in s
    ensures Split(s, c) == [s]
  {
    if |s| > 0 {
      SplitNoSeparator(s[1..], c);
      assert s == [s[0]] + s[1..];
    }
  }

  /** A separator-free head `w` followed by a separator splits off as one piece. */
  lemma {:induction false} SplitPrefix(w: string, t: string, c: char)
    requires c !in w
    requires |t| > 0 && t[0] == c
    ensures Split(w + t, c) == [w] + Split(t[1..], c)
  {
    if |w| == 0 {
      assert w + t == t;
    } else {
      SplitPrefix(w[1..], t, c);
      assert (w + t)[1..] == w[1..] + t;
      assert w == [w[0]] + w[1..];
    }
  }

  /** The length of a join: all pieces plus one separator between neighbours. */
  function TotalLength(parts: seq<string>): nat
  {
    if |parts| == 0 then 0 else |parts[0]| + TotalLength(parts[1..])
  }

  lemma {:induction false} JoinLength(parts: seq<string>, c: char)
    requires |parts| >= 1
    ensures |Join(parts, c)| == TotalLength(parts) + |parts| - 1
  {
    if |parts| > 1 {
      JoinLength(parts[1..], c);
    }
  }

  // ---------------------------------------------------------------------
  // first line

  /** `s.split('\n')[0]`. */
  function FirstLine(s: string): string
  {
    Split(s, '\n')[0]
  }

  /** The first line is the longest newline-free prefix: it is a prefix of
      `s`, holds no newline, and is followed by a newline or by nothing. */
  lemma {:induction false} FirstLineIsPrefix(s: string)
    ensures StartsWith(s, FirstLine(s))
    ensures '\n' !in FirstLine(s)
    ensures FirstLine(s) == s || s[|FirstLine(s)|] == '\n'
  {
    if |s| > 0 && s[0] != '\n' {
      FirstLineIsPrefix(s[1..]);
      assert FirstLine(s) == [s[0]] + FirstLine(s[1..]);
    }
  }

  /** Whatever follows the first newline does not change the first line. */
  lemma FirstLineOfLines(line: string, rest: string)
    requires '\n' !in line
    ensures FirstLine(line + "\n" + rest) == line
  {
    SplitPrefix(line, "\n" + rest, '\n');
    assert line + "\n" + rest == line + ("\n" + rest);
  }
}
