/** The product-kind schema editor
    (src/components/products/ProductKindForm.tsx): a kind's header (key,
    name, description, active flag) and an indexed list of field
    descriptors, edited by patching one position, appending a fresh
    descriptor or dropping a position, and validated by a loop that writes
    one error key per blank name or label. */
module ProductKinds {
  import opened Common
  import opened Ascii
  import opened Decimal
  import opened CommaLists

  /** The choices of a descriptor's type select. */
  datatype FieldType = Text | Number | Boolean | Select | Date

  /** `ProductKindField`; a missing `required` is false, missing options
      are empty and a missing placeholder is "". */
  datatype KindField = KindField(
    name: string, labelText: string, fieldType: FieldType, required: bool,
    options: seq<string>, placeholder: string)

  /** `emptyField`: a nameless, unlabelled, optional text field. */
  const EmptyField := KindField("", "", Text, false, [], "")

  /** A stored kind as the form reads it; an absent description is "". */
  datatype ProductKind = ProductKind(
    key: string, name: string, description: string, isActive: bool, fields: seq<KindField>)

  /** The form record (`form`). */
  datatype KindData = KindData(
    key: string, name: string, description: string, isActive: bool, fields: seq<KindField>)

  const Blank := KindData("", "", "", true, [EmptyField])

  /** The initial `form`: create mode starts active with exactly one empty
      descriptor; edit mode copies the stored kind, its descriptor list
      included even when that list is empty (`[]` is not falsy). */
  function Seed(kind: Option<ProductKind>): (d: KindData)
    ensures kind.None? ==> d == Blank && d.fields == [EmptyField] && d.isActive
    ensures kind.Some? ==>
      var k := kind.value;
      d.key == k.key && d.name == k.name && d.description == k.description
      && d.isActive == k.isActive && d.fields == k.fields
  {
    match kind
    case None => Blank
    case Some(k) => KindData(OrText(k.key, ""), OrText(k.name, ""), OrText(k.description, ""),
                             k.isActive, k.fields)
  }

  /** The one-key patches the descriptor inputs hand to `updateField`. */
  datatype FieldPatch =
    | PatchName(name: string)
    | PatchLabel(labelText: string)
    | PatchType(fieldType: FieldType)
    | PatchRequired(required: bool)
    | PatchOptions(options: seq<string>)
    | PatchPlaceholder(placeholder: string)

  /** The descriptor attribute a patch sets. */
  datatype Attribute = NameAttr | LabelAttr | TypeAttr | RequiredAttr | OptionsAttr | PlaceholderAttr

  function AttributeOf(p: FieldPatch): Attribute {
    match p
    case PatchName(_) => NameAttr
    case PatchLabel(_) => LabelAttr
    case PatchType(_) => TypeAttr
    case PatchRequired(_) => RequiredAttr
    case PatchOptions(_) => OptionsAttr
    case PatchPlaceholder(_) => PlaceholderAttr
  }

  /** Whether `f` already holds the value `p` would write. */
  predicate Holds(f: KindField, p: FieldPatch) {
    match p
    case PatchName(s) => f.name == s
    case PatchLabel(s) => f.labelText == s
    case PatchType(t) => f.fieldType == t
    case PatchRequired(b) => f.required == b
    case PatchOptions(xs) => f.options == xs
    case PatchPlaceholder(s) => f.placeholder == s
  }

  /** `{ ...f, ...patch }`: the patched attribute takes the patch's value and
      every other attribute of the descriptor is kept. */
  function Merge(f: KindField, p: FieldPatch): (r: KindField)
    ensures Holds(r, p)
    ensures forall q :: AttributeOf(q) != AttributeOf(p) ==> (Holds(r, q) <==> Holds(f, q))
  {
    match p
    case PatchName(s) => f.(name := s)
    case PatchLabel(s) => f.(labelText := s)
    case PatchType(t) => f.(fieldType := t)
    case PatchRequired(b) => f.(required := b)
    case PatchOptions(xs) => f.(options := xs)
    case PatchPlaceholder(s) => f.(placeholder := s)
  }

  /** A patch whose value is already there changes nothing. */
  lemma MergeHeld(f: KindField, p: FieldPatch)
    requires Holds(f, p)
    ensures Merge(f, p) == f
  {
  }

  /** Patching twice is patching once. */
  lemma MergeIdempotent(f: KindField, p: FieldPatch)
    ensures Merge(Merge(f, p), p) == Merge(f, p)
  {
    MergeHeld(Merge(f, p), p);
  }

  /** Of two patches to the same attribute the later one wins. */
  lemma MergeLastWins(f: KindField, p: FieldPatch, q: FieldPatch)
    requires AttributeOf(p) == AttributeOf(q)
    ensures Merge(Merge(f, p), q) == Merge(f, q)
  {
  }

  /** Patches to different attributes commute. */
  lemma MergeCommutes(f: KindField, p: FieldPatch, q: FieldPatch)
    requires AttributeOf(p) != AttributeOf(q)
    ensures Merge(Merge(f, p), q) == Merge(Merge(f, q), p)
  {
  }

  /** `fields.map((f, i) => i === index ? { ...f, ...patch } : f)`. */
  function UpdateAt(fields: seq<KindField>, index: int, p: FieldPatch): (r: seq<KindField>)
    ensures |r| == |fields|
    ensures forall i :: 0 <= i < |fields| && i != index ==> r[i] == fields[i]
    ensures 0 <= index < |fields| ==> r[index] == Merge(fields[index], p)
  {
    seq(|fields|, i requires 0 <= i < |fields| => if i == index then Merge(fields[i], p) else fields[i])
  }

  /** An index outside the list leaves it unchanged. */
  lemma UpdateOutOfRange(fields: seq<KindField>, index: int, p: FieldPatch)
    requires !(0 <= index < |fields|)
    ensures UpdateAt(fields, index, p) == fields
  {
  }

  /** Patching a position, then dropping that position, is dropping it. */
  lemma UpdateThenRemove(fields: seq<KindField>, index: int, p: FieldPatch)
    ensures DropIndex(UpdateAt(fields, index, p), index) == DropIndex(fields, index)
  {
    var u := UpdateAt(fields, index, p);
    if 0 <= index < |fields| {
      assert u[..index] == fields[..index];
      assert u[index + 1..] == fields[index + 1..];
    }
  }

  // ---- validation ----

  const KeyRequired := "Key is required"
  const NameRequired := "Name is required"
  const FieldsRequired := "At least one field is required"
  const FieldNameRequired := "Field name required"
  const LabelRequired := "Label required"

  /** The keys the header rules report under. */
  const HeaderKeys: set<string> := {"key", "name", "fields"}

  /** `field-${i}-name` */
  function NameKey(i: nat): string {
    "field-" + NatToString(i) + "-name"
  }

  /** `field-${i}-label` */
  function LabelKey(i: nat): string {
    "field-" + NatToString(i) + "-label"
  }

  /** The number inside a key can be read back, so equal keys have equal indices. */
  lemma InfixDetermined(a: string, b: string, x: string, y: string)
    requires a + x + b == a + y + b
    ensures x == y
  {
    var s := a + x + b;
    assert |x| == |y|;
    assert x == s[|a|..|a| + |x|];
    assert y == (a + y + b)[|a|..|a| + |y|];
  }

  lemma NameKeyInjective(i: nat, j: nat)
    ensures NameKey(i) == NameKey(j) ==> i == j
  {
    if NameKey(i) == NameKey(j) {
      InfixDetermined("field-", "-name", NatToString(i), NatToString(j));
      NatToStringInjective(i, j);
    }
  }

  lemma LabelKeyInjective(i: nat, j: nat)
    ensures LabelKey(i) == LabelKey(j) ==> i == j
  {
    if LabelKey(i) == LabelKey(j) {
      InfixDetermined("field-", "-label", NatToString(i), NatToString(j));
      NatToStringInjective(i, j);
    }
  }

  /** Name keys end in 'e' and label keys in 'l'. */
  lemma NameNotLabel(i: nat, j: nat)
    ensures NameKey(i) != LabelKey(j)
  {
    var n, l := NameKey(i), LabelKey(j);
    assert n[|n| - 1] == 'e' && l[|l| - 1] == 'l';
  }

  /** Descriptor keys are longer than any header key. */
  lemma FieldKeysNotHeader(i: nat)
    ensures NameKey(i) !in HeaderKeys && LabelKey(i) !in HeaderKeys
  {
    assert |NameKey(i)| > 6 && |LabelKey(i)| > 6;
  }

  /** The three header rules of `validate`. */
  function HeaderErrors(d: KindData): (e: Errors)
    ensures "key" in e <==> IsBlank(d.key)
    ensures "name" in e <==> IsBlank(d.name)
    ensures "fields" in e <==> |d.fields| == 0
    ensures e.Keys <= HeaderKeys
    ensures "key" in e ==> e["key"] == KeyRequired
    ensures "name" in e ==> e["name"] == NameRequired
    ensures "fields" in e ==> e["fields"] == FieldsRequired
  {
    var e1 := Check(map[], IsBlank(d.key), "key", KeyRequired);
    var e2 := Check(e1, IsBlank(d.name), "name", NameRequired);
    Check(e2, |d.fields| == 0, "fields", FieldsRequired)
  }

  /** Which of a descriptor's two required texts are blank (`!f.name.trim()`,
      `!f.label.trim()`). */
  datatype Missing = Missing(name: bool, labelText: bool)

  function MissingOf(f: KindField): (m: Missing)
    ensures m.name <==> IsBlank(f.name)
    ensures m.labelText <==> IsBlank(f.labelText)
  {
    Missing(IsBlank(f.name), IsBlank(f.labelText))
  }

  /** The blank flags of every descriptor, in order. */
  function MissingAll(fields: seq<KindField>): (r: seq<Missing>)
    ensures |r| == |fields|
    ensures forall i :: 0 <= i < |fields| ==> r[i] == MissingOf(fields[i])
  {
    seq(|fields|, i requires 0 <= i < |fields| => MissingOf(fields[i]))
  }

  /** One pass of the `forEach` body for position `i`. */
  function PairChecks(e: Errors, m: Missing, i: nat): Errors {
    var e1 := Check(e, m.name, NameKey(i), FieldNameRequired);
    Check(e1, m.labelText, LabelKey(i), LabelRequired)
  }

  /** A pass leaves every key but its own two alone. */
  lemma PairKeeps(e: Errors, m: Missing, i: nat, k: string)
    requires k != NameKey(i) && k != LabelKey(i)
    ensures var r := PairChecks(e, m, i);
            (k in r <==> k in e) && (k in e ==> r[k] == e[k])
  {
  }

  /** A pass adds its name key, with the name message, iff the name is blank. */
  lemma PairName(e: Errors, m: Missing, i: nat)
    ensures var r := PairChecks(e, m, i);
            (NameKey(i) in r <==> m.name || NameKey(i) in e)
            && (m.name ==> r[NameKey(i)] == FieldNameRequired)
  {
    NameNotLabel(i, i);
  }

  /** A pass adds its label key, with the label message, iff the label is blank. */
  lemma PairLabel(e: Errors, m: Missing, i: nat)
    ensures var r := PairChecks(e, m, i);
            (LabelKey(i) in r <==> m.labelText || LabelKey(i) in e)
            && (m.labelText ==> r[LabelKey(i)] == LabelRequired)
  {
  }

  /** The two `if` statements of one pass compute `PairChecks`. */
  lemma PassMatches(prev: Errors, mid: Errors, next: Errors, m: Missing, i: nat)
    requires mid == if m.name then prev[NameKey(i) := FieldNameRequired] else prev
    requires next == if m.labelText then mid[LabelKey(i) := LabelRequired] else mid
    ensures next == PairChecks(prev, m, i)
  {
  }

  predicate FieldComplete(f: KindField) {
    !IsBlank(f.name) && !IsBlank(f.labelText)
  }

  /** The dictionary after the `forEach` has visited the first `n`
      descriptors, starting from `base`. */
  function ErrorsUpTo(flags: seq<Missing>, n: nat, base: Errors): Errors
    requires n <= |flags|
    decreases n
  {
    if n == 0 then base
    else PairChecks(ErrorsUpTo(flags, n - 1, base), flags[n - 1], n - 1)
  }

  /** The header entries survive the loop unchanged. */
  lemma {:induction false} LoopKeepsHeader(flags: seq<Missing>, n: nat, base: Errors, k: string)
    requires n <= |flags| && base.Keys <= HeaderKeys && k in base
    ensures k in ErrorsUpTo(flags, n, base) && ErrorsUpTo(flags, n, base)[k] == base[k]
    decreases n
  {
    if n > 0 {
      LoopKeepsHeader(flags, n - 1, base, k);
      FieldKeysNotHeader(n - 1);
      PairKeeps(ErrorsUpTo(flags, n - 1, base), flags[n - 1], n - 1, k);
    }
  }

  /** No descriptor the loop has not reached has an entry yet. */
  lemma {:induction false} LoopNotYet(flags: seq<Missing>, n: nat, base: Errors, j: nat)
    requires n <= |flags| && base.Keys <= HeaderKeys && j >= n
    ensures NameKey(j) !in ErrorsUpTo(flags, n, base) && LabelKey(j) !in ErrorsUpTo(flags, n, base)
    decreases n
  {
    if n == 0 {
      FieldKeysNotHeader(j);
    } else {
      var prev := ErrorsUpTo(flags, n - 1, base);
      LoopNotYet(flags, n - 1, base, j);
      NameKeyInjective(j, n - 1);
      LabelKeyInjective(j, n - 1);
      NameNotLabel(j, n - 1);
      NameNotLabel(n - 1, j);
      PairKeeps(prev, flags[n - 1], n - 1, NameKey(j));
      PairKeeps(prev, flags[n - 1], n - 1, LabelKey(j));
    }
  }

  /** A visited position has a name entry iff its name is blank, with the
      name message. */
  lemma {:induction false} LoopNameEntry(flags: seq<Missing>, n: nat, base: Errors, i: nat)
    requires n <= |flags| && base.Keys <= HeaderKeys && i < n
    ensures var r := ErrorsUpTo(flags, n, base);
            (NameKey(i) in r <==> flags[i].name)
            && (NameKey(i) in r ==> r[NameKey(i)] == FieldNameRequired)
    decreases n
  {
    var m := n - 1;
    var prev := ErrorsUpTo(flags, m, base);
    if i == m {
      LoopNotYet(flags, m, base, m);
      PairName(prev, flags[m], m);
    } else {
      LoopNameEntry(flags, m, base, i);
      NameKeyInjective(i, m);
      NameNotLabel(i, m);
      PairKeeps(prev, flags[m], m, NameKey(i));
    }
  }

  /** A visited position has a label entry iff its label is blank, with the
      label message. */
  lemma {:induction false} LoopLabelEntry(flags: seq<Missing>, n: nat, base: Errors, i: nat)
    requires n <= |flags| && base.Keys <= HeaderKeys && i < n
    ensures var r := ErrorsUpTo(flags, n, base);
            (LabelKey(i) in r <==> flags[i].labelText)
            && (LabelKey(i) in r ==> r[LabelKey(i)] == LabelRequired)
    decreases n
  {
    var m := n - 1;
    var prev := ErrorsUpTo(flags, m, base);
    if i == m {
      LoopNotYet(flags, m, base, m);
      PairLabel(prev, flags[m], m);
    } else {
      LoopLabelEntry(flags, m, base, i);
      LabelKeyInjective(i, m);
      NameNotLabel(m, i);
      PairKeeps(prev, flags[m], m, LabelKey(i));
    }
  }

  /** The loop adds descriptor keys of visited positions and nothing else. */
  lemma {:induction false} LoopOnlyFieldKeys(flags: seq<Missing>, n: nat, base: Errors, k: string)
    requires n <= |flags| && k in ErrorsUpTo(flags, n, base)
    ensures k in base || exists i :: 0 <= i < n && (k == NameKey(i) || k == LabelKey(i))
    decreases n
  {
    if n > 0 {
      if k in ErrorsUpTo(flags, n - 1, base) {
        LoopOnlyFieldKeys(flags, n - 1, base, k);
      } else {
        assert k == NameKey(n - 1) || k == LabelKey(n - 1);
      }
    }
  }

  /** When no visited position is missing anything the loop adds nothing. */
  lemma {:induction false} LoopCompleteAddsNothing(flags: seq<Missing>, n: nat, base: Errors)
    requires n <= |flags|
    requires forall i :: 0 <= i < n ==> flags[i] == Missing(false, false)
    ensures ErrorsUpTo(flags, n, base) == base
    decreases n
  {
    if n > 0 {
      LoopCompleteAddsNothing(flags, n - 1, base);
      assert flags[n - 1] == Missing(false, false);
    }
  }

  /** The dictionary `validate` builds. */
  function KindErrors(d: KindData): Errors {
    ErrorsUpTo(MissingAll(d.fields), |d.fields|, HeaderErrors(d))
  }

  /** The header keys of the dictionary: 'key', 'name' and 'fields' are
      reported iff the key is blank, the name is blank, the list is empty. */
  lemma HeaderEntries(d: KindData)
    ensures "key" in KindErrors(d) <==> IsBlank(d.key)
    ensures "name" in KindErrors(d) <==> IsBlank(d.name)
    ensures "fields" in KindErrors(d) <==> |d.fields| == 0
  {
    var h := HeaderErrors(d);
    var e := KindErrors(d);
    FieldKeysNotHeader(0);
    forall k | k in h ensures k in e {
      LoopKeepsHeader(MissingAll(d.fields), |d.fields|, h, k);
    }
    forall k | k in HeaderKeys && k in e ensures k in h {
      LoopOnlyFieldKeys(MissingAll(d.fields), |d.fields|, h, k);
      if k !in h {
        var i :| 0 <= i < |d.fields| && (k == NameKey(i) || k == LabelKey(i));
        FieldKeysNotHeader(i);
      }
    }
  }

  /** The descriptor keys of the dictionary: `field-i-name` and
      `field-i-label` are reported, with their messages, iff the name or
      label at position i is blank. */
  lemma FieldEntries(d: KindData, i: nat)
    requires i < |d.fields|
    ensures var e := KindErrors(d);
            (NameKey(i) in e <==> IsBlank(d.fields[i].name))
            && (LabelKey(i) in e <==> IsBlank(d.fields[i].labelText))
            && (NameKey(i) in e ==> e[NameKey(i)] == FieldNameRequired)
            && (LabelKey(i) in e ==> e[LabelKey(i)] == LabelRequired)
  {
    LoopNameEntry(MissingAll(d.fields), |d.fields|, HeaderErrors(d), i);
    LoopLabelEntry(MissingAll(d.fields), |d.fields|, HeaderErrors(d), i);
  }

  /** Every key of the dictionary is a header key or a descriptor key of a
      position in the list. */
  lemma OnlyKnownKeys(d: KindData, k: string)
    requires k in KindErrors(d)
    ensures k in HeaderKeys || exists i :: 0 <= i < |d.fields| && (k == NameKey(i) || k == LabelKey(i))
  {
    LoopOnlyFieldKeys(MissingAll(d.fields), |d.fields|, HeaderErrors(d), k);
  }

  /** Exactly what `validate` accepts. */
  predicate Submittable(d: KindData) {
    && !IsBlank(d.key) && !IsBlank(d.name) && |d.fields| > 0
    && forall i :: 0 <= i < |d.fields| ==> FieldComplete(d.fields[i])
  }

  /** `validate` returns true iff key and name are non-blank, there is at
      least one descriptor, and every descriptor has a non-blank name and
      label. */
  lemma ValidIff(d: KindData)
    ensures KindErrors(d) == map[] <==> Submittable(d)
  {
    if Submittable(d) {
      SubmittableNoErrors(d);
    } else {
      UnsubmittableReported(d);
    }
  }

  lemma SubmittableNoErrors(d: KindData)
    requires Submittable(d)
    ensures KindErrors(d) == map[]
  {
    var h := HeaderErrors(d);
    assert h == map[] by {
      assert "key" !in h && "name" !in h && "fields" !in h;
      assert h.Keys == {};
    }
    var flags := MissingAll(d.fields);
    forall i | 0 <= i < |d.fields| ensures flags[i] == Missing(false, false) {
      assert FieldComplete(d.fields[i]);
    }
    LoopCompleteAddsNothing(flags, |d.fields|, h);
  }

  lemma UnsubmittableReported(d: KindData)
    requires !Submittable(d)
    ensures KindErrors(d) != map[]
  {
    var e := KindErrors(d);
    HeaderEntries(d);
    if IsBlank(d.key) {
      assert "key" in e;
    } else if IsBlank(d.name) {
      assert "name" in e;
    } else if |d.fields| == 0 {
      assert "fields" in e;
    } else {
      var i :| 0 <= i < |d.fields| && !FieldComplete(d.fields[i]);
      FieldEntries(d, i);
      assert NameKey(i) in e || LabelKey(i) in e;
    }
  }

  /** A fresh create-mode form is invalid: key, name and both keys of the
      empty descriptor are reported, and the list is not. */
  lemma FreshFormInvalid()
    ensures KindErrors(Seed(None)).Keys == {"key", "name", NameKey(0), LabelKey(0)}
    ensures !Submittable(Seed(None))
  {
    var e := KindErrors(Blank);
    assert IsBlank(EmptyField.name) && IsBlank(EmptyField.labelText);
    assert Blank.fields[0] == EmptyField;
    HeaderEntries(Blank);
    FieldEntries(Blank, 0);
    forall k | k in e ensures k in {"key", "name", NameKey(0), LabelKey(0)} {
      OnlyKnownKeys(Blank, k);
    }
    ValidIff(Blank);
  }

  /** Naming a descriptor removes the cause of its name error. */
  lemma NamingClearsNameError(d: KindData, index: nat, name: string)
    requires index < |d.fields| && !IsBlank(name)
    ensures NameKey(index) !in KindErrors(d.(fields := UpdateAt(d.fields, index, PatchName(name))))
  {
    var d' := d.(fields := UpdateAt(d.fields, index, PatchName(name)));
    assert d'.fields[index].name == name;
    FieldEntries(d', index);
  }

  /** A patch at one position leaves the error entries of every other
      position as they were. */
  lemma PatchKeepsOtherEntries(d: KindData, index: nat, p: FieldPatch, j: nat)
    requires j < |d.fields| && j != index
    ensures var d' := d.(fields := UpdateAt(d.fields, index, p));
            (NameKey(j) in KindErrors(d') <==> NameKey(j) in KindErrors(d))
            && (LabelKey(j) in KindErrors(d') <==> LabelKey(j) in KindErrors(d))
  {
    var d' := d.(fields := UpdateAt(d.fields, index, p));
    assert d'.fields[j] == d.fields[j];
    FieldEntries(d, j);
    FieldEntries(d', j);
  }

  /** A freshly appended descriptor is always reported, so adding a field
      makes the form invalid until it is named and labelled. */
  lemma AddedFieldReported(d: KindData)
    ensures var d' := d.(fields := d.fields + [EmptyField]);
            NameKey(|d.fields|) in KindErrors(d') && LabelKey(|d.fields|) in KindErrors(d')
            && !Submittable(d')
  {
    var d' := d.(fields := d.fields + [EmptyField]);
    assert d'.fields[|d.fields|] == EmptyField;
    assert IsBlank(EmptyField.name) && IsBlank(EmptyField.labelText);
    FieldEntries(d', |d.fields|);
  }

  /** The remove control is shown only when more than one descriptor exists,
      so removing through it never leaves the list empty and never raises the
      'fields' error. */
  lemma GuardedRemoveKeepsOne(d: KindData, index: int)
    requires |d.fields| > 1 && 0 <= index < |d.fields|
    ensures |DropIndex(d.fields, index)| == |d.fields| - 1 >= 1
    ensures "fields" !in KindErrors(d.(fields := DropIndex(d.fields, index)))
  {
    HeaderEntries(d.(fields := DropIndex(d.fields, index)));
  }

  /** The options input shows `options.join(', ')` and sends back the
      parsed text; re-reading what it shows changes nothing. */
  lemma OptionsEchoStable(f: KindField)
    requires CleanOptions(f.options)
    ensures Merge(f, PatchOptions(ParseOptions(ShowOptions(f.options)))) == f
  {
    ShowThenParse(f.options);
    MergeHeld(f, PatchOptions(f.options));
  }

  /** The `forEach` of `validate`: visits the descriptors in order and
      adds an entry for each blank name and each blank label. */
  method CheckFields(fields: seq<KindField>, start: Errors) returns (e: Errors)
    ensures e == ErrorsUpTo(MissingAll(fields), |fields|, start)
  {
    e := start;
    ghost var flags := MissingAll(fields);
    assert e == ErrorsUpTo(flags, 0, start);
    var i := 0;
    while i < |fields|
      invariant 0 <= i <= |fields|
      invariant e == ErrorsUpTo(flags, i, start)
    {
      var f := fields[i];
      ghost var prev := e;
      if IsBlank(f.name) {
        e := e[NameKey(i) := FieldNameRequired];
      }
      ghost var mid := e;
      if IsBlank(f.labelText) {
        e := e[LabelKey(i) := LabelRequired];
      }
      PassMatches(prev, mid, e, flags[i], i);
      assert ErrorsUpTo(flags, i + 1, start) == PairChecks(prev, flags[i], i);
      i := i + 1;
    }
  }

  /** Collects the dictionary exactly as `validate` does: the header rules,
      then the loop over the descriptors. */
  method CollectErrors(d: KindData) returns (e: Errors)
    ensures e == KindErrors(d)
    ensures e == map[] <==> Submittable(d)
  {
    e := map[];
    e := Check(e, IsBlank(d.key), "key", KeyRequired);
    e := Check(e, IsBlank(d.name), "name", NameRequired);
    e := Check(e, |d.fields| == 0, "fields", FieldsRequired);
    e := CheckFields(d.fields, e);
    ValidIff(d);
  }

  class KindForm {
    var data: KindData
    var errors: Errors

    constructor (kind: Option<ProductKind>)
      ensures data == Seed(kind) && errors == map[]
    {
      data := Seed(kind);
      errors := map[];
    }

    /** `validate`: replaces the dictionary and reports whether it is empty. */
    method Validate() returns (valid: bool)
      modifies this`errors
      ensures errors == KindErrors(data)
      ensures valid <==> Submittable(data)
    {
      var e := CollectErrors(data);
      errors := e;
      valid := |e| == 0;
    }

    /** Returns the record handed to `onSubmit`, or `None` when it is not called. */
    method HandleSubmit() returns (submitted: Option<KindData>)
      modifies this`errors
      ensures errors == KindErrors(data)
      ensures submitted.None? <==> !Submittable(data)
      ensures submitted.Some? ==> submitted.value == data
    {
      var valid := Validate();
      if !valid {
        return None;
      }
      return Some(data);
    }

    /** The header inputs replace one header value; none of them touches the
        errors. */
    method SetKey(value: string)
      modifies this`data
      ensures data == old(data).(key := value)
    {
      data := data.(key := value);
    }

    method SetName(value: string)
      modifies this`data
      ensures data == old(data).(name := value)
    {
      data := data.(name := value);
    }

    method SetDescription(value: string)
      modifies this`data
      ensures data == old(data).(description := value)
    {
      data := data.(description := value);
    }

    method SetActive(value: bool)
      modifies this`data
      ensures data == old(data).(isActive := value)
    {
      data := data.(isActive := value);
    }

    /** `updateField(index, patch)`: only that position changes, merged with
        the patch, and the length is kept. */
    method UpdateField(index: int, patch: FieldPatch)
      modifies this`data
      ensures data == old(data).(fields := UpdateAt(old(data).fields, index, patch))
      ensures |data.fields| == |old(data).fields|
    {
      data := data.(fields := UpdateAt(data.fields, index, patch));
    }

    /** `addField`: one fresh empty descriptor is appended. */
    method AddField()
      modifies this`data
      ensures data == old(data).(fields := old(data).fields + [EmptyField])
      ensures !Submittable(data)
    {
      AddedFieldReported(data);
      data := data.(fields := data.fields + [EmptyField]);
    }

    /** `removeField(index)`: exactly that position leaves, the rest keep
        their order; the index-keyed errors are left as they were. */
    method RemoveField(index: int)
      modifies this`data
      ensures data == old(data).(fields := DropIndex(old(data).fields, index))
      ensures 0 <= index < |old(data).fields| ==> |data.fields| == |old(data).fields| - 1
    {
      data := data.(fields := DropIndex(data.fields, index));
    }

    /** The options input of the descriptor at `index`. */
    method SetFieldOptions(index: int, text: string)
      modifies this`data
      ensures data == old(data).(fields := UpdateAt(old(data).fields, index, PatchOptions(ParseOptions(text))))
      ensures 0 <= index < |data.fields| ==> CleanOptions(data.fields[index].options)
    {
      var options := ParseOptions(text);
      ParsedOptionsClean(text);
      UpdateField(index, PatchOptions(options));
      if 0 <= index < |data.fields| {
        assert Holds(data.fields[index], PatchOptions(options));
      }
    }
  }
}
