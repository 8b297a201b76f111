/**
 * The parts of ECMAScript string behaviour the survey page relies on:
 * the white-space class shared by `\s` and `String.prototype.trim`,
 * `trim` itself, `.length` in UTF-16 code units, and `Array.prototype.join`
 * over strings.
 *
 * Strings are sequences of Unicode scalar values. Every white-space code
 * point lies in the Basic Multilingual Plane, so trimming and the
 * character class `[^\s@]` behave the same whether a string is read as code
 * points or as UTF-16 code units; only `.length` tells the two apart.
 */
module JsText {

  /** ECMAScript WhiteSpace (TAB, VT, FF, ZWNBSP, category Zs) or LineTerminator (LF, CR, LS, PS). */
  predicate IsSpace(c: char): (space: bool)
    ensures space ==> c as int <= 0xFFFF
    ensures space ==> c != '@' && c != ',' && c != '.'
  {
    || c == '\U{0009}' || c == '\U{000B}' || c == '\U{000C}' || c == '\U{FEFF}'
    || c == ' ' || c == '\U{00A0}' || c == '\U{1680}' || ('\U{2000}' <= c <= '\U{200A}')
    || c == '\U{202F}' || c == '\U{205F}' || c == '\U{3000}'
    || c == '\n' || c == '\r' || c == '\U{2028}' || c == '\U{2029}'
  }

  predicate AllSpace(s: string) {
    forall k :: 0 <= k < |s| ==> IsSpace(s[k])
  }

  /** The first index at or after `i` that does not hold white space, or `|s|`. */
  function SkipSpace(s: string, i: nat): (j: nat)
    requires i <= |s|
    ensures i <= j <= |s|
    ensures forall k :: i <= k < j ==> IsSpace(s[k])
    ensures j < |s| ==> !IsSpace(s[j])
    decreases |s| - i
  {
    if i < |s| && IsSpace(s[i]) then SkipSpace(s, i + 1) else i
  }

  /** Going back from `j` but not below `lo`: the index just after the last character that is not white space, or `lo`. */
  function SkipSpaceBack(s: string, lo: nat, j: nat): (i: nat)
    requires lo <= j <= |s|
    ensures lo <= i <= j
    ensures forall k :: i <= k < j ==> IsSpace(s[k])
    ensures i > lo ==> !IsSpace(s[i - 1])
  {
    if j > lo && IsSpace(s[j - 1]) then SkipSpaceBack(s, lo, j - 1) else j
  }

  /** Where `Trim(s)` starts inside `s`. */
  function TrimStart(s: string): nat {
    SkipSpace(s, 0)
  }

  /**
   * `String.prototype.trim`: the infix of `s` left after removing white space
   * at both ends. Everything removed is white space; the result is empty
   * exactly when `s` is all white space, and otherwise starts and ends with a
   * character that is not white space.
   */
  function Trim(s: string): (r: string)
    ensures TrimStart(s) + |r| <= |s| && r == s[TrimStart(s)..TrimStart(s) + |r|]
    ensures forall k :: 0 <= k < TrimStart(s) ==> IsSpace(s[k])
    ensures forall k :: TrimStart(s) + |r| <= k < |s| ==> IsSpace(s[k])
    ensures r == [] <==> AllSpace(s)
    ensures r == [] || (!IsSpace(r[0]) && !IsSpace(r[|r| - 1]))
  {
    var start := SkipSpace(s, 0);
    var end := SkipSpaceBack(s, start, |s|);
    assert start < |s| ==> end > start;
    s[start..end]
  }

  /** Number of UTF-16 code units that encode `c`. */
  function CodeUnits(c: char): nat {
    if c as int <= 0xFFFF then 1 else 2
  }

  /**
   * ECMAScript `.length`: the number of UTF-16 code units. It is between
   * the number of characters and twice that, and equal to the number of
   * characters exactly when none lies outside the Basic Multilingual Plane.
   */
  function Utf16Length(s: string): (n: nat)
    ensures |s| <= n <= 2 * |s|
    ensures n == |s| <==> forall k :: 0 <= k < |s| ==> s[k] as int <= 0xFFFF
  {
    if s == [] then 0 else CodeUnits(s[0]) + Utf16Length(s[1..])
  }

  /** `parts.join(sep)`: the parts in order, with `sep` between neighbours. */
  function Join(parts: seq<string>, sep: string): string {
    if parts == [] then ""
    else if |parts| == 1 then parts[0]
    else parts[0] + sep + Join(parts[1..], sep)
  }

  /**
   * `join` of nothing is ""; otherwise the text starts with the first part,
   * ends with the last, and holds a separator for each pair of neighbours.
   */
  lemma {:induction false} JoinEnds(parts: seq<string>, sep: string)
    ensures parts == [] ==> Join(parts, sep) == ""
    ensures parts != [] ==> parts[0] <= Join(parts, sep)
    ensures parts != [] ==> var last := parts[|parts| - 1]; var r := Join(parts, sep);
      |last| <= |r| && r[|r| - |last|..] == last
    ensures |Join(parts, sep)| >= (|parts| - 1) * |sep|
  {
    if |parts| > 1 {
      JoinEnds(parts[1..], sep);
      var rest := Join(parts[1..], sep);
      assert Join(parts, sep) == parts[0] + sep + rest;
      assert parts[1..][|parts[1..]| - 1] == parts[|parts| - 1];
      assert (|parts| - 1) * |sep| == |sep| + (|parts| - 2) * |sep|;
    }
  }

  /** The pieces of `s` between occurrences of `c`, like `s.split(c)`. */
  function SplitOn(s: string, c: char): (pieces: seq<string>)
    ensures |pieces| >= 1
  {
    if s == [] then [""]
    else
      var rest := SplitOn(s[1..], c);
      if s[0] == c then [""] + rest else [[s[0]] + rest[0]] + rest[1..]
  }

  function DropLeadingSpace(s: string): string {
    if s != [] && s[0] == ' ' then s[1..] else s
  }

  /** Reads a cell written by `Join(parts, ", ")` back into its parts. */
  function SplitJoined(cell: string): (parts: seq<string>)
    ensures |parts| >= 1
  {
    var pieces := SplitOn(cell, ',');
    [pieces[0]] + seq(|pieces| - 1, i requires 0 <= i < |pieces| - 1 => DropLeadingSpace(pieces[i + 1]))
  }

  lemma {:induction false} SplitOnFree(a: string, c: char)
    requires c !in a
    ensures SplitOn(a, c) == [a]
  {
    if a != [] {
      SplitOnFree(a[1..], c);
      assert [a[0]] + a[1..] == a;
    }
  }

  lemma {:induction false} SplitOnAfter(a: string, c: char, b: string)
    requires c !in a
    ensures SplitOn(a + [c] + b, c) == [a] + SplitOn(b, c)
  {
    if a == [] {
      assert a + [c] + b == [c] + b;
      assert ([c] + b)[1..] == b;
    } else {
      var s := a + [c] + b;
      assert s[1..] == a[1..] + [c] + b;
      SplitOnAfter(a[1..], c, b);
      assert [a[0]] + a[1..] == a;
    }
  }

  lemma SplitOnSpaceFirst(y: string)
    ensures SplitOn(" " + y, ',') == [" " + SplitOn(y, ',')[0]] + SplitOn(y, ',')[1..]
  {
    assert (" " + y)[1..] == y;
  }

  /** Splitting a ", "-joined list on ',' gives the first part and every later part behind one space. */
  lemma {:induction false} SplitOnJoin(parts: seq<string>)
    requires parts != []
    requires forall i :: 0 <= i < |parts| ==> ',' !in parts[i]
    ensures |SplitOn(Join(parts, ", "), ',')| == |parts|
    ensures SplitOn(Join(parts, ", "), ',')[0] == parts[0]
    ensures forall i :: 1 <= i < |parts| ==> SplitOn(Join(parts, ", "), ',')[i] == " " + parts[i]
  {
    if |parts| == 1 {
      SplitOnFree(parts[0], ',');
    } else {
      var rest := parts[1..];
      var y := Join(rest, ", ");
      SplitOnJoin(rest);
      assert Join(parts, ", ") == parts[0] + [','] + (" " + y);
      SplitOnAfter(parts[0], ',', " " + y);
      SplitOnSpaceFirst(y);
      var p := SplitOn(Join(parts, ", "), ',');
      forall i | 1 <= i < |parts| ensures p[i] == " " + parts[i] {
        assert rest[i - 1] == parts[i];
      }
    }
  }

  /** A list of parts without commas survives being joined with ", " and split again. */
  lemma {:induction false} SplitJoinedJoin(parts: seq<string>)
    requires parts != []
    requires forall i :: 0 <= i < |parts| ==> ',' !in parts[i]
    ensures SplitJoined(Join(parts, ", ")) == parts
  {
    SplitOnJoin(parts);
    var pieces := SplitOn(Join(parts, ", "), ',');
    var r := SplitJoined(Join(parts, ", "));
    assert |r| == |parts|;
    forall i | 0 <= i < |parts| ensures r[i] == parts[i] {
      if i > 0 {
        assert r[i] == DropLeadingSpace(pieces[i]);
        assert pieces[i] == " " + parts[i];
        assert (" " + parts[i])[1..] == parts[i];
      }
    }
  }
}
