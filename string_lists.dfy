/** The one rule every form applies to its string-list fields (awards,
    genres, specialties, imprints, tags, images, sizes, colours, authors ...):
    trim the typed value, ignore blanks, never insert a duplicate, remove by
    value. */
module StringLists {
  import opened Ascii

  predicate NoDuplicates(xs: seq<string>) {
    forall i, j :: 0 <= i < j < |xs| ==> xs[i] != xs[j]
  }

  predicate NoBlanks(xs: seq<string>) {
    forall i :: 0 <= i < |xs| ==> !IsBlank(xs[i])
  }

  /** The set-like shape the add/remove helpers keep. */
  predicate Clean(xs: seq<string>) {
    NoDuplicates(xs) && NoBlanks(xs)
  }

  /** `input.trim() && !list.includes(input.trim())`: the guard of every add helper. */
  predicate Accepts(xs: seq<string>, input: string) {
    !IsBlank(input) && Trim(input) !in xs
  }

  /** `[...list, input.trim()]` when the guard holds, the list itself otherwise. */
  function AddUnique(xs: seq<string>, input: string): (r: seq<string>)
    ensures |xs| <= |r| <= |xs| + 1 && r[..|xs|] == xs
    ensures !IsBlank(input) ==> Trim(input) in r
    ensures IsBlank(input) ==> r == xs
    ensures |r| == |xs| + 1 ==> r[|xs|] == Trim(input) && Trim(input) !in xs
  {
    if Accepts(xs, input) then xs + [Trim(input)] else xs
  }

  /** `list.filter(x => x !== v)`. */
  function RemoveAll(xs: seq<string>, v: string): (r: seq<string>)
    ensures |r| <= |xs|
    ensures forall x :: x in r <==> x in xs && x != v
    ensures multiset(r) == multiset(xs)[v := 0]
  {
    if xs == [] then []
    else
      var rest := RemoveAll(xs[1..], v);
      assert xs == [xs[0]] + xs[1..];
      if xs[0] == v then rest else [xs[0]] + rest
  }

  /** Filtering works piecewise, so the survivors keep their relative order. */
  lemma {:induction false} RemoveAllAppend(a: seq<string>, b: seq<string>, v: string)
    ensures RemoveAll(a + b, v) == RemoveAll(a, v) + RemoveAll(b, v)
  {
    if a == [] {
      assert a + b == b;
    } else {
      assert (a + b)[1..] == a[1..] + b;
      RemoveAllAppend(a[1..], b, v);
    }
  }

  /** Removing a value that is not there changes nothing. */
  lemma {:induction false} RemoveAbsent(xs: seq<string>, v: string)
    requires v !in xs
    ensures RemoveAll(xs, v) == xs
  {
    if xs != [] {
      RemoveAbsent(xs[1..], v);
      assert xs == [xs[0]] + xs[1..];
    }
  }

  /** A value added by the helper is found again by `includes`, so a second
      add of the same text is a no-op. */
  lemma AddTwice(xs: seq<string>, input: string)
    ensures AddUnique(AddUnique(xs, input), input) == AddUnique(xs, input)
  {
  }

  /** Removing what was just added restores a list that lacked it. */
  lemma AddThenRemove(xs: seq<string>, input: string)
    requires Accepts(xs, input)
    ensures RemoveAll(AddUnique(xs, input), Trim(input)) == xs
  {
    RemoveAllAppend(xs, [Trim(input)], Trim(input));
    RemoveAbsent(xs, Trim(input));
  }

  lemma AddKeepsClean(xs: seq<string>, input: string)
    requires Clean(xs)
    ensures Clean(AddUnique(xs, input))
  {
    if Accepts(xs, input) {
      var t := Trim(input);
      assert !IsSpace(t[0]);
      var r := xs + [t];
      forall i, j | 0 <= i < j < |r| ensures r[i] != r[j] {
        assert r[i] == xs[i];
        if j < |xs| {
          assert r[j] == xs[j];
        }
      }
      forall i | 0 <= i < |r| ensures !IsBlank(r[i]) {
        if i < |xs| {
          assert r[i] == xs[i];
        }
      }
    }
  }

  lemma {:induction false} RemoveKeepsClean(xs: seq<string>, v: string)
    requires Clean(xs)
    ensures Clean(RemoveAll(xs, v))
  {
    if xs != [] {
      var rest := RemoveAll(xs[1..], v);
      RemoveKeepsClean(xs[1..], v);
      if xs[0] != v {
        assert xs[0] !in xs[1..];
        assert xs[0] !in rest;
        assert RemoveAll(xs, v) == [xs[0]] + rest;
      }
    }
  }

  /** One click of an add or a remove control. */
  datatype ListEdit = Add(input: string) | Remove(value: string)

  function ApplyEdit(xs: seq<string>, e: ListEdit): seq<string> {
    match e
    case Add(input) => AddUnique(xs, input)
    case Remove(v) => RemoveAll(xs, v)
  }

  function ApplyEdits(xs: seq<string>, edits: seq<ListEdit>): seq<string>
    decreases |edits|
  {
    if edits == [] then xs else ApplyEdits(ApplyEdit(xs, edits[0]), edits[1..])
  }

  /** Starting from a list without duplicates or blanks, any sequence of
      add and remove clicks keeps it so. */
  lemma {:induction false} EditsKeepClean(xs: seq<string>, edits: seq<ListEdit>)
    requires Clean(xs)
    ensures Clean(ApplyEdits(xs, edits))
    decreases |edits|
  {
    if edits != [] {
      var next := ApplyEdit(xs, edits[0]);
      match edits[0] {
        case Add(input) => AddKeepsClean(xs, input);
        case Remove(v) => RemoveKeepsClean(xs, v);
      }
      EditsKeepClean(next, edits[1..]);
    }
  }
}
