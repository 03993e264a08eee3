/** `resizePath` (src/service/paths.ts): shortens a path for display by
    abbreviating its components, left to right, to their first character,
    and falls back to a truncated last component. */
module Paths {
  import opened Wrappers
  import opened Text

  /** A component longer than one character is cut to its first character. */
  function Abbreviated(part: string): (r: string)
    ensures |part| > 1 ==> r == part[..1] && |r| == 1
    ensures |part| <= 1 ==> r == part
  {
    if |part| > 1 then part[..1] else part
  }

  /** The components after the loop has visited indices 1 .. k-1:
      each visited component is abbreviated, the others are as split. */
  function Stage(parts: seq<string>, k: nat): (r: seq<string>)
    ensures |r| == |parts|
  {
    seq(|parts|, i requires 0 <= i < |parts| => if 1 <= i < k then Abbreviated(parts[i]) else parts[i])
  }

  /** The loop returns at index k: a component longer than one character
      was just abbreviated and the joined result fits in `maxLength`. */
  predicate FitsAt(parts: seq<string>, maxLength: int, sep: char, k: nat)
    requires k < |parts|
  {
    |parts[k]| > 1 && |Join(Stage(parts, k + 1), sep)| <= maxLength
  }

  /** The first stage, visiting index `i` onwards, at which the loop returns. */
  function FirstFit(parts: seq<string>, maxLength: int, sep: char, i: nat): Option<string>
    decreases |parts| - i
  {
    if i >= |parts| then None
    else if FitsAt(parts, maxLength, sep, i) then Some(Join(Stage(parts, i + 1), sep))
    else FirstFit(parts, maxLength, sep, i + 1)
  }

  /** `s.substring(0, n)`: a negative bound counts as 0, a long one as |s|. */
  function Truncated(s: string, n: int): (r: string)
    ensures n >= 0 ==> |r| <= n
    ensures StartsWith(s, r)
  {
    if n <= 0 then "" else if n >= |s| then s else s[..n]
  }

  /** The result `resizePath` computes, stated on values. */
  function Resized(path: string, maxLength: int, sep: char): string
  {
    if |path| <= maxLength then path
    else
      var parts := Split(path, sep);
      match FirstFit(parts, maxLength, sep, 1)
      case Some(cut) => cut
      case None => Truncated(Stage(parts, |parts|)[|parts| - 1], maxLength)
  }

  /** The loop of resizePath, over the array that `split` returns, overwriting
      components in place. */
  method ResizePath(path: string, maxLength: int, sep: char) returns (r: string)
    ensures r == Resized(path, maxLength, sep)
    ensures |path| <= maxLength ==> r == path
    ensures maxLength >= 0 ==> |r| <= maxLength
  {
    ResizedFits(path, maxLength, sep);
    if |path| <= maxLength {
      return path;
    }
    var split := Split(path, sep);
    var parts := new string[|split|](i requires 0 <= i < |split| => split[i]);
    var cut := "";
    var i := 1;
    while i < parts.Length
      invariant 1 <= i <= parts.Length
      invariant parts[..] == Stage(split, i)
      invariant FirstFit(split, maxLength, sep, 1) == FirstFit(split, maxLength, sep, i)
    {
      if |parts[i]| > 1 {
        parts[i] := parts[i][..1];
        assert parts[..] == Stage(split, i + 1);
        cut := Join(parts[..], sep);
        if |cut| <= maxLength {
          return cut;
        }
      } else {
        assert Stage(split, i + 1) == Stage(split, i);
      }
      i := i + 1;
    }
    cut := parts[parts.Length - 1];
    r := Truncated(cut, maxLength);
  }

  // ---------------------------------------------------------------------
  // properties

  /** A stage found by FirstFit fits, and it is a stage of the split path. */
  lemma {:induction false} FirstFitFits(parts: seq<string>, maxLength: int, sep: char, i: nat)
    ensures FirstFit(parts, maxLength, sep, i).Some? ==>
      exists k :: i <= k < |parts| && FitsAt(parts, maxLength, sep, k)
        && FirstFit(parts, maxLength, sep, i).value == Join(Stage(parts, k + 1), sep)
        && (forall j :: i <= j < k ==> !FitsAt(parts, maxLength, sep, j))
    ensures FirstFit(parts, maxLength, sep, i).None? ==>
      forall j :: i <= j < |parts| ==> !FitsAt(parts, maxLength, sep, j)
    decreases |parts| - i
  {
    if i < |parts| {
      FirstFitFits(parts, maxLength, sep, i + 1);
      if !FitsAt(parts, maxLength, sep, i) {
        if FirstFit(parts, maxLength, sep, i + 1).Some? {
          var k :| i + 1 <= k < |parts| && FitsAt(parts, maxLength, sep, k)
            && FirstFit(parts, maxLength, sep, i + 1).value == Join(Stage(parts, k + 1), sep)
            && (forall j :: i + 1 <= j < k ==> !FitsAt(parts, maxLength, sep, j));
          assert i <= k;
        }
      }
    }
  }

  /** The result is never longer than a non-negative bound, and a path that
      already fits comes back unchanged. */
  lemma ResizedFits(path: string, maxLength: int, sep: char)
    ensures |path| <= maxLength ==> Resized(path, maxLength, sep) == path
    ensures maxLength >= 0 ==> |Resized(path, maxLength, sep)| <= maxLength
  {
    FirstFitFits(Split(path, sep), maxLength, sep, 1);
  }

  /** When an abbreviation stage is returned (FirstFitFits: the earliest one
      that fits), it keeps the number of components (so the number of separators),
      leaves component 0 as it was, and every other component is either
      unchanged or cut to its first character. */
  lemma ResizedStage(path: string, maxLength: int, sep: char)
    requires |path| > maxLength
    requires FirstFit(Split(path, sep), maxLength, sep, 1).Some?
    ensures var parts := Split(path, sep);
      var out := Split(Resized(path, maxLength, sep), sep);
      && |out| == |parts|
      && out[0] == parts[0]
      && (forall i :: 1 <= i < |parts| ==> out[i] == parts[i] || out[i] == Abbreviated(parts[i]))
      && |Resized(path, maxLength, sep)| <= maxLength
  {
    var parts := Split(path, sep);
    FirstFitFits(parts, maxLength, sep, 1);
    var k :| 1 <= k < |parts| && FitsAt(parts, maxLength, sep, k)
      && FirstFit(parts, maxLength, sep, 1).value == Join(Stage(parts, k + 1), sep);
    var stage := Stage(parts, k + 1);
    forall i | 0 <= i < |stage| ensures sep !in stage[i] {
      assert sep !in parts[i];
    }
    SplitJoin(stage, sep);
  }

  /** When no stage fits, the result is the last component (as abbreviated
      by the loop) cut to `maxLength` characters: all of it when it fits,
      nothing for a bound of zero or less. */
  lemma ResizedFallback(path: string, maxLength: int, sep: char)
    requires |path| > maxLength
    requires FirstFit(Split(path, sep), maxLength, sep, 1).None?
    ensures var parts := Split(path, sep);
      var last := if |parts| == 1 then parts[0] else Abbreviated(parts[|parts| - 1]);
      && StartsWith(last, Resized(path, maxLength, sep))
      && (0 <= maxLength <= |last| ==> |Resized(path, maxLength, sep)| == maxLength)
      && (maxLength >= |last| ==> Resized(path, maxLength, sep) == last)
      && (maxLength <= 0 ==> Resized(path, maxLength, sep) == "")
      && (forall j :: 1 <= j < |parts| ==> !FitsAt(parts, maxLength, sep, j))
  {
    FirstFitFits(Split(path, sep), maxLength, sep, 1);
  }

  /** Joining four components. */
  lemma JoinFour(a: string, b: string, c: string, d: string, sep: char)
    ensures Join([a, b, c, d], sep) == a + [sep] + b + [sep] + c + [sep] + d
  {
    var parts := [a, b, c, d];
    assert parts[1..] == [b, c, d] && parts[1..][1..] == [c, d] && parts[1..][1..][1..] == [d];
    assert Join([c, d], sep) == c + [sep] + d;
    assert Join([b, c, d], sep) == b + [sep] + (c + [sep] + d);
  }

  /** The stage after visiting index 1 of four components. */
  lemma StageTwoOfFour(a: string, b: string, c: string, d: string)
    ensures Stage([a, b, c, d], 2) == [a, Abbreviated(b), c, d]
  {
  }

  /** A four-component path that is too long but fits once its second
      component is abbreviated comes back with that one abbreviation. */
  lemma ResizedFirstOfFour(a: string, b: string, c: string, d: string, sep: char, maxLength: int)
    requires sep !in a && sep !in b && sep !in c && sep !in d && |b| > 1
    requires |a + [sep] + b[..1] + [sep] + c + [sep] + d| <= maxLength
    requires |a + [sep] + b + [sep] + c + [sep] + d| > maxLength
    ensures Resized(a + [sep] + b + [sep] + c + [sep] + d, maxLength, sep)
      == a + [sep] + b[..1] + [sep] + c + [sep] + d
  {
    var parts := [a, b, c, d];
    var path := a + [sep] + b + [sep] + c + [sep] + d;
    JoinFour(a, b, c, d, sep);
    SplitJoin(parts, sep);
    StageTwoOfFour(a, b, c, d);
    JoinFour(a, b[..1], c, d, sep);
    assert FitsAt(parts, maxLength, sep, 1);
  }

  /** Example: "/home/user/docs" abbreviated to fit in 12 characters stops at
      the first stage that fits, "/h/user/docs". */
  lemma ResizedExample(path: string)
    requires path == "/home/user/docs"
    ensures Resized(path, 12, '/') == "/h/user/docs"
  {
    var home, user, docs := "home", "user", "docs";
    ResizedFirstOfFour("", home, user, docs, '/', 12);
    assert "" + "/" + home + "/" + user + "/" + docs == path;
    assert "" + "/" + home[..1] + "/" + user + "/" + docs == "/h/user/docs";
  }
}
