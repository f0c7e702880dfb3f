/** The comma-separated options input of the product-kind editor
    (src/components/products/ProductKindForm.tsx): the list is shown as
    `options.join(', ')` and read back with
    `text.split(',').map(v => v.trim()).filter(Boolean)`. */
module CommaLists {
  import opened Ascii

  /** `xs.join(sep)`. */
  function Join(xs: seq<string>, sep: string): string
    decreases |xs|
  {
    if |xs| == 0 then ""
    else if |xs| == 1 then xs[0]
    else xs[0] + sep + Join(xs[1..], sep)
  }

  /** `s.split(sep)` for a one-character separator: the pieces between
      separators, always at least one, and joining them gives `s` back. */
  function Split(s: string, sep: char): (r: seq<string>)
    ensures |r| >= 1
    ensures forall i :: 0 <= i < |r| ==> sep !in r[i]
    ensures Join(r, [sep]) == s
    decreases |s|
  {
    if s == [] then [""]
    else if s[0] == sep then
      var rest := Split(s[1..], sep);
      assert s == [sep] + s[1..];
      [""] + rest
    else
      var rest := Split(s[1..], sep);
      var r := [[s[0]] + rest[0]] + rest[1..];
      assert sep !in [s[0]] + rest[0];
      assert forall i :: 1 <= i < |r| ==> r[i] == rest[i];
      JoinHead(rest, [sep]);
      JoinHead(r, [sep]);
      assert r[1..] == rest[1..];
      assert s == [s[0]] + s[1..];
      r
  }

  /** Joining splits off the first element. */
  lemma JoinHead(xs: seq<string>, sep: string)
    requires |xs| >= 1
    ensures Join(xs, sep) == xs[0] + (if |xs| == 1 then "" else sep + Join(xs[1..], sep))
  {
  }

  /** A piece that holds no separator splits off whole. */
  lemma {:induction false} SplitAfter(a: string, b: string, sep: char)
    requires sep !in a
    ensures Split(a + [sep] + b, sep) == [a] + Split(b, sep)
    decreases |a|
  {
    if a == [] {
      assert a + [sep] + b == [sep] + b;
    } else {
      var s := a + [sep] + b;
      assert s[0] == a[0] && s[1..] == a[1..] + [sep] + b;
      SplitAfter(a[1..], b, sep);
      assert [a[0]] + a[1..] == a;
    }
  }

  /** Text that holds no separator is a single piece. */
  lemma {:induction false} SplitNone(a: string, sep: char)
    requires sep !in a
    ensures Split(a, sep) == [a]
    decreases |a|
  {
    if a != [] {
      SplitNone(a[1..], sep);
      assert [a[0]] + a[1..] == a;
    }
  }

  /** `.map(v => v.trim())`. */
  function TrimEach(xs: seq<string>): (r: seq<string>)
    ensures |r| == |xs|
    ensures forall i :: 0 <= i < |xs| ==> r[i] == Trim(xs[i])
  {
    seq(|xs|, i requires 0 <= i < |xs| => Trim(xs[i]))
  }

  /** `.filter(Boolean)`: the empty strings leave, the rest keep their order. */
  function DropEmpty(xs: seq<string>): (r: seq<string>)
    ensures |r| <= |xs|
    ensures forall i :: 0 <= i < |r| ==> r[i] != ""
    ensures forall x :: x in r <==> x in xs && x != ""
    ensures (forall i :: 0 <= i < |xs| ==> xs[i] != "") ==> r == xs
    ensures |xs| == 1 ==> r == if xs[0] == "" then [] else xs
  {
    if xs == [] then []
    else
      var rest := DropEmpty(xs[1..]);
      assert xs == [xs[0]] + xs[1..];
      if xs[0] == "" then rest else [xs[0]] + rest
  }

  /** The filter looks at one entry at a time: it distributes over
      concatenation, so with the one-entry case it keeps exactly the
      non-empty entries, in their order. */
  lemma {:induction false} DropEmptyAppend(a: seq<string>, b: seq<string>)
    ensures DropEmpty(a + b) == DropEmpty(a) + DropEmpty(b)
  {
    if a == [] {
      assert a + b == b;
    } else {
      assert (a + b)[1..] == a[1..] + b;
      DropEmptyAppend(a[1..], b);
    }
  }

  /** The options the input yields for a text. */
  function ParseOptions(text: string): seq<string> {
    DropEmpty(TrimEach(Split(text, ',')))
  }

  /** The text the input shows for a list of options. */
  function ShowOptions(options: seq<string>): string {
    Join(options, ", ")
  }

  /** What a parsed option looks like: non-empty, no comma, no whitespace at
      either end. */
  predicate CleanOption(o: string) {
    o != "" && ',' !in o && !IsSpace(o[0]) && !IsSpace(o[|o| - 1])
  }

  predicate CleanOptions(xs: seq<string>) {
    forall i :: 0 <= i < |xs| ==> CleanOption(xs[i])
  }

  /** A comma-free piece that is not blank trims to a clean option. */
  lemma TrimmedPieceClean(piece: string)
    requires ',' !in piece && Trim(piece) != ""
    ensures CleanOption(Trim(piece))
  {
    TrimKeepsChars(piece);
  }

  /** Every option read from the input is clean, whatever was typed. */
  lemma ParsedOptionsClean(text: string)
    ensures CleanOptions(ParseOptions(text))
  {
    var pieces := Split(text, ',');
    var trimmed := TrimEach(pieces);
    forall x | x in trimmed && x != "" ensures CleanOption(x) {
      var j :| 0 <= j < |trimmed| && trimmed[j] == x;
      TrimmedPieceClean(pieces[j]);
    }
    var r := DropEmpty(trimmed);
    forall i | 0 <= i < |r| ensures CleanOption(r[i]) {
      assert r[i] in r;
    }
  }

  /** A clean option is its own trim, also after the space the join puts
      in front of it. */
  lemma TrimClean(o: string)
    requires CleanOption(o)
    ensures Trim(o) == o && Trim(" " + o) == o
  {
    TrimDropsLeadingSpace(" ", o);
    TrimFixesTrimmed(o);
  }

  /** Each option of a list with a space in front, as the ", " join leaves them. */
  function Spaced(xs: seq<string>): (r: seq<string>)
    ensures |r| == |xs|
    ensures forall i :: 0 <= i < |xs| ==> r[i] == " " + xs[i]
  {
    seq(|xs|, i requires 0 <= i < |xs| => " " + xs[i])
  }

  lemma ConcatRegroup(p: string, x: string, rest: string)
    ensures p + (x + ", " + rest) == (p + x) + [','] + (" " + rest)
  {
  }

  /** Splitting the shown text, with any comma-free text in front, gives the
      first option (behind that text) and then each later option with the
      space of its ", " in front. */
  lemma {:induction false} SplitShown(p: string, xs: seq<string>)
    requires ',' !in p
    requires |xs| >= 1 && CleanOptions(xs)
    ensures Split(p + ShowOptions(xs), ',') == [p + xs[0]] + Spaced(xs[1..])
    decreases |xs|
  {
    if |xs| == 1 {
      assert ShowOptions(xs) == xs[0];
      assert ',' !in p + xs[0];
      SplitNone(p + xs[0], ',');
    } else {
      var tail := xs[1..];
      assert CleanOptions(tail) by {
        forall i | 0 <= i < |tail| ensures CleanOption(tail[i]) { assert tail[i] == xs[i + 1]; }
      }
      var rest := ShowOptions(tail);
      assert ShowOptions(xs) == xs[0] + ", " + rest;
      ConcatRegroup(p, xs[0], rest);
      assert ',' !in p + xs[0];
      SplitAfter(p + xs[0], " " + rest, ',');
      SplitShown(" ", tail);
      assert Spaced(xs[1..]) == [" " + tail[0]] + Spaced(tail[1..]);
    }
  }

  /** Trimming the split pieces of the shown text recovers the options. */
  lemma TrimShownPieces(xs: seq<string>)
    requires |xs| >= 1 && CleanOptions(xs)
    ensures TrimEach([xs[0]] + Spaced(xs[1..])) == xs
  {
    var pieces := [xs[0]] + Spaced(xs[1..]);
    var t := TrimEach(pieces);
    forall i | 0 <= i < |xs| ensures t[i] == xs[i] {
      TrimClean(xs[i]);
      if i > 0 { assert pieces[i] == " " + xs[i]; }
    }
  }

  /** An empty input gives no options. */
  lemma ParseNothing()
    ensures ParseOptions("") == []
  {
    assert Split("", ',') == [""];
    TrimFixesTrimmed("");
    assert TrimEach([""]) == [""];
  }

  /** Showing clean options and reading the text back gives the same list. */
  lemma ShowThenParse(xs: seq<string>)
    requires CleanOptions(xs)
    ensures ParseOptions(ShowOptions(xs)) == xs
  {
    if xs == [] {
      ParseNothing();
    } else {
      SplitShown("", xs);
      assert "" + ShowOptions(xs) == ShowOptions(xs);
      TrimShownPieces(xs);
      assert forall i :: 0 <= i < |xs| ==> xs[i] != "";
    }
  }

  /** Reading the input normalises it once and for all: the text the editor
      shows next reads back as the same options. */
  lemma ParseIdempotent(text: string)
    ensures ParseOptions(ShowOptions(ParseOptions(text))) == ParseOptions(text)
  {
    ParsedOptionsClean(text);
    ShowThenParse(ParseOptions(text));
  }
}
