/**
 * The string operations the bridge applies to message bodies and command
 * arguments: JavaScript's `split` on a one-character separator, `trim`,
 * `startsWith` and `endsWith`.
 */
module Text {

  /** Position of the first occurrence of `c` in `s`. */
  function IndexOf(s: string, c: char): (i: nat)
    requires c in s
    ensures i < |s| && s[i] == c && c !in s[..i]
  {
    if s[0] == c then 0
    else
      var j := IndexOf(s[1..], c);
      assert s[..j + 1] == [s[0]] + s[1..][..j];
      1 + j
  }

  /**
   * `s.split(sep)` for a one-character separator: the maximal runs of
   * characters between separators, always at least one (possibly empty) part.
   */
  function Split(s: string, sep: char): (parts: seq<string>)
    ensures |parts| >= 1
    ensures |parts| == 1 <==> sep !in s
    // the first part is the text before the first separator
    ensures parts[0] <= s && (|parts[0]| < |s| ==> s[|parts[0]|] == sep)
    decreases |s|
  {
    if sep !in s then [s]
    else
      var i := IndexOf(s, sep);
      [s[..i]] + Split(s[i + 1..], sep)
  }

  /** No part of a split holds the separator. */
  lemma {:induction false} SplitPartsAreFree(s: string, sep: char)
    ensures forall i :: 0 <= i < |Split(s, sep)| ==> sep !in Split(s, sep)[i]
    decreases |s|
  {
    if sep in s {
      var i := IndexOf(s, sep);
      SplitPartsAreFree(s[i + 1..], sep);
    }
  }

  /** `parts.join(sep)`, the inverse of `Split`. */
  function Join(parts: seq<string>, sep: char): string
    requires |parts| >= 1
  {
    if |parts| == 1 then parts[0] else parts[0] + [sep] + Join(parts[1..], sep)
  }

  lemma JoinCons(first: string, rest: seq<string>, sep: char)
    requires |rest| >= 1
    ensures Join([first] + rest, sep) == first + [sep] + Join(rest, sep)
  {
    assert ([first] + rest)[1..] == rest;
  }

  /** Splitting loses nothing: joining the parts gives back the input. */
  lemma {:induction false} JoinSplit(s: string, sep: char)
    ensures Join(Split(s, sep), sep) == s
    decreases |s|
  {
    if sep in s {
      var i := IndexOf(s, sep);
      var rest := Split(s[i + 1..], sep);
      JoinSplit(s[i + 1..], sep);
      JoinCons(s[..i], rest, sep);
      assert s[..i + 1] == s[..i] + [sep];
      assert s == s[..i + 1] + s[i + 1..];
    }
  }

  /** The first separator of `p + [sep] + tail`, when `p` has none, is the one after `p`. */
  lemma SplitAfterFreePart(p: string, tail: string, sep: char)
    requires sep !in p
    ensures Split(p + [sep] + tail, sep) == [p] + Split(tail, sep)
  {
    var s := p + [sep] + tail;
    assert s[|p|] == sep && s[..|p|] == p;
    var i := IndexOf(s, sep);
    assert i == |p|;
    assert s[i + 1..] == tail;
  }

  lemma HeadTail(parts: seq<string>)
    requires |parts| >= 1
    ensures [parts[0]] + parts[1..] == parts
  {
  }

  /** Joining separator-free parts and splitting again gives back the parts. */
  lemma {:induction false} SplitJoin(parts: seq<string>, sep: char)
    requires |parts| >= 1
    requires forall i :: 0 <= i < |parts| ==> sep !in parts[i]
    ensures Split(Join(parts, sep), sep) == parts
  {
    if |parts| > 1 {
      var p0, rest := parts[0], parts[1..];
      assert forall i :: 0 <= i < |rest| ==> sep !in rest[i] by {
        assert forall i :: 0 <= i < |rest| ==> rest[i] == parts[i + 1];
      }
      SplitJoin(rest, sep);
      var tail := Join(rest, sep);
      assert Join(parts, sep) == p0 + [sep] + tail;
      SplitAfterFreePart(p0, tail, sep);
      calc {
        Split(Join(parts, sep), sep);
        Split(p0 + [sep] + tail, sep);
        [p0] + Split(tail, sep);
        [p0] + rest;
        { HeadTail(parts); }
        parts;
      }
    }
  }

  /** `s.startsWith(p)`. */
  predicate StartsWith(s: string, p: string) {
    p <= s
  }

  /** `s.endsWith(p)`. */
  predicate EndsWith(s: string, p: string) {
    |p| <= |s| && s[|s| - |p|..] == p
  }

  /** The white-space characters `String.prototype.trim` removes (the ASCII ones). */
  predicate IsSpace(c: char) {
    c == ' ' || c == '\t' || c == '\n' || c == '\r' || c == '\U{B}' || c == '\U{C}'
  }

  /** `s` without its leading white space. */
  function TrimStart(s: string): (r: string)
    ensures |r| <= |s| && r == s[|s| - |r|..]
    ensures r == [] || !IsSpace(r[0])
    ensures forall i :: 0 <= i < |s| - |r| ==> IsSpace(s[i])
  {
    if |s| > 0 && IsSpace(s[0]) then TrimStart(s[1..]) else s
  }

  /** `s` without its trailing white space. */
  function TrimEnd(s: string): (r: string)
    ensures |r| <= |s| && r == s[..|r|]
    ensures r == [] || !IsSpace(r[|r| - 1])
    ensures forall i :: |r| <= i < |s| ==> IsSpace(s[i])
  {
    if |s| > 0 && IsSpace(s[|s| - 1]) then TrimEnd(s[..|s| - 1]) else s
  }

  /** `r` is the slice of `s` at `k`, with only white space before and after it. */
  predicate SlicedFrom(s: string, k: int, r: string) {
    && 0 <= k <= |s| - |r| && r == s[k..k + |r|]
    && (forall j :: 0 <= j < k ==> IsSpace(s[j]))
    && (forall j :: k + |r| <= j < |s| ==> IsSpace(s[j]))
  }

  /**
   * `s.trim()`: the slice of `s` left once the white space at both ends is
   * removed; it neither starts nor ends with white space.
   */
  function Trim(s: string): (r: string)
    ensures |r| <= |s|
    ensures r == [] || (!IsSpace(r[0]) && !IsSpace(r[|r| - 1]))
    ensures exists k :: SlicedFrom(s, k, r)
  {
    var t := TrimStart(s);
    var k := |s| - |t|;
    var r := TrimEnd(t);
    assert r == s[k..k + |r|];
    assert SlicedFrom(s, k, r) by {
      forall j | k + |r| <= j < |s|
        ensures IsSpace(s[j])
      {
        assert s[j] == t[j - k];
      }
    }
    r
  }
}
