/** Character classes and the string primitives the forms rely on
    (`trim`, `toLowerCase`, `toUpperCase`, regex `\s` and `\w`),
    restricted to ASCII. */
module Ascii {

  /** Regex `\s` and the characters `String.prototype.trim` strips:
      space, tab, line feed, vertical tab, form feed, carriage return. */
  predicate IsSpace(c: char) {
    c == ' ' || ('\t' <= c <= '\r')
  }

  /** Regex `\w`: letters, digits and underscore. */
  predicate IsWordChar(c: char) {
    ('a' <= c <= 'z') || ('A' <= c <= 'Z') || ('0' <= c <= '9') || c == '_'
  }

  predicate AllSpace(s: string) {
    forall i :: 0 <= i < |s| ==> IsSpace(s[i])
  }

  function Lower(c: char): (r: char)
    ensures 'A' <= c <= 'Z' ==> 'a' <= r <= 'z'
    ensures !('A' <= c <= 'Z') ==> r == c
  {
    if 'A' <= c <= 'Z' then (c as int + 32) as char else c
  }

  function Upper(c: char): (r: char)
    ensures 'a' <= c <= 'z' ==> 'A' <= r <= 'Z'
    ensures !('a' <= c <= 'z') ==> r == c
  {
    if 'a' <= c <= 'z' then (c as int - 32) as char else c
  }

  /** `s.toLowerCase()` on ASCII. */
  function LowerAll(s: string): (r: string)
    ensures |r| == |s|
    ensures forall i :: 0 <= i < |s| ==> r[i] == Lower(s[i])
  {
    seq(|s|, i requires 0 <= i < |s| => Lower(s[i]))
  }

  /** Drops leading whitespace. */
  function TrimStart(s: string): (r: string)
    ensures |r| <= |s| && r == s[|s| - |r|..]
    ensures forall i :: 0 <= i < |s| - |r| ==> IsSpace(s[i])
    ensures r == [] || !IsSpace(r[0])
  {
    if s != [] && IsSpace(s[0]) then TrimStart(s[1..]) else s
  }

  /** Drops trailing whitespace. */
  function TrimEnd(s: string): (r: string)
    ensures |r| <= |s| && r == s[..|r|]
    ensures forall i :: |r| <= i < |s| ==> IsSpace(s[i])
    ensures r == [] || !IsSpace(r[|r| - 1])
  {
    if s != [] && IsSpace(s[|s| - 1]) then TrimEnd(s[..|s| - 1]) else s
  }

  /** `s.trim()`: whitespace removed at both ends; text that is all
      whitespace trims to "". */
  function Trim(s: string): (r: string)
    ensures |r| <= |s|
    ensures r == [] || (!IsSpace(r[0]) && !IsSpace(r[|r| - 1]))
    ensures r == [] <==> AllSpace(s)
  {
    TrimEnd(TrimStart(s))
  }

  /** What `trim` keeps is a slice of `s`, starting where the leading
      whitespace ends. */
  lemma TrimSlice(s: string)
    ensures var r, lo := Trim(s), |s| - |TrimStart(s)|;
            0 <= lo <= |s| - |r| && r == s[lo..lo + |r|]
  {
    var t := TrimStart(s);
    var r := TrimEnd(t);
    var lo := |s| - |t|;
    assert t == s[lo..];
    assert r == t[..|r|];
  }

  /** What `TrimStart` drops is whitespace. */
  lemma LeadingRun(s: string)
    ensures AllSpace(s[..|s| - |TrimStart(s)|])
  {
    var pre := s[..|s| - |TrimStart(s)|];
    forall k | 0 <= k < |pre| ensures IsSpace(pre[k]) {
      assert pre[k] == s[k];
    }
  }

  /** What `TrimEnd` drops is whitespace. */
  lemma TrailingRun(t: string)
    ensures AllSpace(t[|TrimEnd(t)|..])
  {
    var n := |TrimEnd(t)|;
    var post := t[n..];
    forall k | 0 <= k < |post| ensures IsSpace(post[k]) {
      assert post[k] == t[n + k];
    }
  }

  /** `!s.trim()`: the text is empty once trimmed, that is, it is all
      whitespace (see `BlankIffTrimEmpty`). */
  predicate IsBlank(s: string) {
    AllSpace(s)
  }

  lemma BlankIffTrimEmpty(s: string)
    ensures IsBlank(s) <==> Trim(s) == []
  {
  }

  /** Trimming a trimmed string changes nothing. */
  lemma TrimIdempotent(s: string)
    ensures Trim(Trim(s)) == Trim(s)
  {
    var r := Trim(s);
    assert TrimStart(r) == r;
    assert TrimEnd(r) == r;
  }

  /** A string with no whitespace at either end is its own trim. */
  lemma TrimFixesTrimmed(s: string)
    requires s == [] || (!IsSpace(s[0]) && !IsSpace(s[|s| - 1]))
    ensures Trim(s) == s
  {
    assert TrimStart(s) == s;
    assert TrimEnd(s) == s;
  }

  /** Trimming only removes characters. */
  lemma TrimKeepsChars(s: string)
    ensures forall c :: c in Trim(s) ==> c in s
  {
    var t := TrimStart(s);
    SliceKeepsChars(s, |s| - |t|, |s|);
    SliceKeepsChars(t, 0, |TrimEnd(t)|);
  }

  lemma SliceKeepsChars(s: string, lo: int, hi: int)
    requires 0 <= lo <= hi <= |s|
    ensures forall c :: c in s[lo..hi] ==> c in s
  {
    forall c | c in s[lo..hi] ensures c in s {
      var k :| 0 <= k < hi - lo && s[lo..hi][k] == c;
      assert s[lo + k] == c;
    }
  }

  /** Whitespace added in front of a string disappears under `trim`. */
  lemma {:induction false} TrimDropsLeadingSpace(pad: string, s: string)
    requires AllSpace(pad)
    ensures Trim(pad + s) == Trim(s)
  {
    if pad != [] {
      assert (pad + s)[1..] == pad[1..] + s;
      assert TrimStart(pad + s) == TrimStart(pad[1..] + s);
      TrimDropsLeadingSpace(pad[1..], s);
    } else {
      assert pad + s == s;
    }
  }
}
