/** The slug rule the three book forms share:
    `name.toLowerCase().replace(/[^a-z0-9\s-]/g, '').replace(/\s+/g, '-')`. */
module Slugs {
  import opened Ascii

  /** The characters the first `replace` keeps. */
  predicate Kept(c: char) {
    ('a' <= c <= 'z') || ('0' <= c <= '9') || IsSpace(c) || c == '-'
  }

  /** The alphabet of a finished slug: `[a-z0-9-]`. */
  predicate SlugChar(c: char) {
    ('a' <= c <= 'z') || ('0' <= c <= '9') || c == '-'
  }

  predicate IsSlug(s: string) {
    forall i :: 0 <= i < |s| ==> SlugChar(s[i])
  }

  /** `.replace(/[^a-z0-9\s-]/g, '')`. */
  function DropDisallowed(s: string): (r: string)
    ensures |r| <= |s|
    ensures forall i :: 0 <= i < |r| ==> Kept(r[i])
    ensures forall c :: c in r <==> c in s && Kept(c)
    ensures |s| == 1 ==> r == if Kept(s[0]) then s else []
  {
    if s == [] then []
    else
      var rest := DropDisallowed(s[1..]);
      assert s == [s[0]] + s[1..];
      if Kept(s[0]) then [s[0]] + rest else rest
  }

  /** The filter works character by character: it distributes over
      concatenation, so together with the one-character case it keeps
      exactly the allowed characters, in their order. */
  lemma {:induction false} DropDisallowedAppend(a: string, b: string)
    ensures DropDisallowed(a + b) == DropDisallowed(a) + DropDisallowed(b)
  {
    if a == [] {
      assert a + b == b;
    } else {
      assert (a + b)[1..] == a[1..] + b;
      DropDisallowedAppend(a[1..], b);
    }
  }

  /** `.replace(/\s+/g, '-')`: each maximal run of whitespace becomes one '-'. */
  function DashRuns(s: string): (r: string)
    ensures forall c :: c in r ==> !IsSpace(c)
    ensures (forall i :: 0 <= i < |s| ==> !IsSpace(s[i])) ==> r == s
    ensures s != [] && IsSpace(s[0]) ==> r != [] && r[0] == '-'
    ensures forall c :: c in r && c != '-' ==> c in s
    decreases |s|
  {
    if s == [] then []
    else if IsSpace(s[0]) then
      var t := TrimStart(s[1..]);
      assert t == s[|s| - |t|..];
      "-" + DashRuns(t)
    else
      var rest := DashRuns(s[1..]);
      assert s == [s[0]] + s[1..];
      [s[0]] + rest
  }

  // The lemmas from here to `TrimStartKeepsLast` are the steps of the
  // proof of `DashRunsRun`.

  /** Whitespace in front of a string is dropped by `TrimStart` along with
      the string's own leading whitespace. */
  lemma {:induction false} TrimStartPad(pad: string, s: string)
    requires AllSpace(pad)
    ensures TrimStart(pad + s) == TrimStart(s)
  {
    if pad == [] {
      assert pad + s == s;
    } else {
      assert (pad + s)[1..] == pad[1..] + s;
      TrimStartPad(pad[1..], s);
    }
  }

  /** `TrimStart` stops inside a string that holds a non-space, so what
      follows that string is untouched. */
  lemma {:induction false} TrimStartAppend(x: string, y: string)
    requires exists i :: 0 <= i < |x| && !IsSpace(x[i])
    ensures TrimStart(x + y) == TrimStart(x) + y
  {
    if IsSpace(x[0]) {
      assert (x + y)[1..] == x[1..] + y;
      var i :| 0 <= i < |x| && !IsSpace(x[i]);
      assert !IsSpace(x[1..][i - 1]);
      TrimStartAppend(x[1..], y);
    }
  }

  /** A run of whitespace at the front becomes one '-'. */
  lemma LeadingRunDash(w: string, b: string)
    requires w != [] && AllSpace(w)
    requires b == [] || !IsSpace(b[0])
    ensures DashRuns(w + b) == "-" + DashRuns(b)
  {
    var x := w + b;
    assert x[0] == w[0] && x[1..] == w[1..] + b;
    TrimStartPad(w[1..], b);
  }

  /** One step of the rewrite, on a non-empty string. */
  lemma DashRunsStep(x: string)
    requires x != []
    ensures IsSpace(x[0]) ==> DashRuns(x) == "-" + DashRuns(TrimStart(x[1..]))
    ensures !IsSpace(x[0]) ==> DashRuns(x) == [x[0]] + DashRuns(x[1..])
  {
  }

  /** A leading space of a string that holds a non-space later on: the run
      it starts ends inside the string. */
  lemma SpaceStep(a: string, w: string, b: string)
    requires a != [] && IsSpace(a[0]) && !IsSpace(a[|a| - 1])
    ensures DashRuns(a + w + b) == "-" + DashRuns(TrimStart(a[1..]) + w + b)
  {
    var rest, tail := a[1..], w + b;
    var x := a + w + b;
    assert x[0] == a[0] && x[1..] == rest + tail;
    assert !IsSpace(rest[|rest| - 1]);
    TrimStartAppend(rest, tail);
    DashRunsStep(x);
    assert TrimStart(rest) + tail == TrimStart(rest) + w + b;
  }

  /** A leading non-space is copied. */
  lemma CharStep(a: string, w: string, b: string)
    requires a != [] && !IsSpace(a[0])
    ensures DashRuns(a + w + b) == [a[0]] + DashRuns(a[1..] + w + b)
  {
    var x := a + w + b;
    assert x[0] == a[0] && x[1..] == a[1..] + w + b;
    DashRunsStep(x);
  }

  /** One maximal run of whitespace between two pieces becomes exactly one
      '-', and the pieces on either side are rewritten on their own. */
  lemma {:induction false} DashRunsRun(a: string, w: string, b: string)
    requires a == [] || !IsSpace(a[|a| - 1])
    requires w != [] && AllSpace(w)
    requires b == [] || !IsSpace(b[0])
    ensures DashRuns(a + w + b) == DashRuns(a) + "-" + DashRuns(b)
    decreases |a|
  {
    if a == [] {
      assert a + w + b == w + b;
      LeadingRunDash(w, b);
    } else if IsSpace(a[0]) {
      var t := TrimStart(a[1..]);
      TrimStartKeepsLast(a[1..]);
      DashRunsRun(t, w, b);
      SpaceCase(a, w, b);
    } else {
      DashRunsRun(a[1..], w, b);
      CharCase(a, w, b);
    }
  }

  lemma SpaceCase(a: string, w: string, b: string)
    requires a != [] && IsSpace(a[0]) && !IsSpace(a[|a| - 1])
    requires DashRuns(TrimStart(a[1..]) + w + b) == DashRuns(TrimStart(a[1..])) + "-" + DashRuns(b)
    ensures DashRuns(a + w + b) == DashRuns(a) + "-" + DashRuns(b)
  {
    SpaceStep(a, w, b);
    DashRunsStep(a);
    Regroup("-", DashRuns(TrimStart(a[1..])), "-", DashRuns(b));
  }

  lemma CharCase(a: string, w: string, b: string)
    requires a != [] && !IsSpace(a[0])
    requires DashRuns(a[1..] + w + b) == DashRuns(a[1..]) + "-" + DashRuns(b)
    ensures DashRuns(a + w + b) == DashRuns(a) + "-" + DashRuns(b)
  {
    CharStep(a, w, b);
    DashRunsStep(a);
    Regroup([a[0]], DashRuns(a[1..]), "-", DashRuns(b));
  }

  lemma Regroup(x: string, y: string, z: string, u: string)
    ensures x + (y + z + u) == x + y + z + u
  {
  }

  lemma TrimStartKeepsLast(s: string)
    requires s != [] && !IsSpace(s[|s| - 1])
    ensures TrimStart(s) != [] && TrimStart(s)[|TrimStart(s)| - 1] == s[|s| - 1]
  {
  }

  /** The slug `generateSlug` writes into the form. */
  function Slugify(name: string): string {
    DashRuns(DropDisallowed(LowerAll(name)))
  }

  /** Every character of a generated slug is in `[a-z0-9-]`. */
  lemma SlugAlphabet(name: string)
    ensures IsSlug(Slugify(name))
  {
    var kept := DropDisallowed(LowerAll(name));
    var r := DashRuns(kept);
    forall i | 0 <= i < |r| ensures SlugChar(r[i]) {
      assert r[i] in r;
      if r[i] != '-' {
        assert r[i] in kept;
        assert Kept(r[i]) && !IsSpace(r[i]);
      }
    }
  }

  /** A string already in the slug alphabet passes through every step unchanged. */
  lemma SlugFixesSlugs(s: string)
    requires IsSlug(s)
    ensures Slugify(s) == s
  {
    assert LowerAll(s) == s;
    DropKeepsKept(s);
  }

  lemma {:induction false} DropKeepsKept(s: string)
    requires forall i :: 0 <= i < |s| ==> Kept(s[i])
    ensures DropDisallowed(s) == s
  {
    if s != [] {
      DropKeepsKept(s[1..]);
      assert s == [s[0]] + s[1..];
    }
  }

  /** Generating a slug from a slug gives the same slug. */
  lemma SlugIdempotent(name: string)
    ensures Slugify(Slugify(name)) == Slugify(name)
  {
    SlugAlphabet(name);
    SlugFixesSlugs(Slugify(name));
  }

  /** The rule does not trim: a name that starts with whitespace gives a slug
      that starts with '-'. */
  lemma LeadingSpaceGivesDash(name: string)
    requires name != [] && IsSpace(name[0])
    ensures Slugify(name) != [] && Slugify(name)[0] == '-'
  {
    var low := LowerAll(name);
    assert low[0] == name[0];
    assert DropDisallowed(low) == [low[0]] + DropDisallowed(low[1..]) by {
      assert low == [low[0]] + low[1..];
    }
  }
}
