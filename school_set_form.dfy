/** The school-set editor (src/components/products/SchoolSetForm.tsx): a
    product record that bundles a list of set items, a draft item the user
    fills in before adding it, tag and image lists kept by the shared
    add/remove rule, a four-key validator and the running total of the set. */
module SchoolSets {
  import opened Common
  import opened Ascii
  import opened Decimal
  import opened StringLists

  /** One line of a set; prices are whole currency units. */
  datatype SetItem = SetItem(productId: string, productName: string, quantity: int, unitPrice: int)

  /** A stored school set as the form reads it; an absent text is "", an
      absent number 0, and the two flags may be missing. */
  datatype SchoolSet = SchoolSet(
    name: string, slug: string, description: string, gradeLevel: string,
    board: string, syllabusYear: string, ageGroup: string,
    price: int, costPrice: int, images: seq<string>,
    isActive: Option<bool>, isFeatured: Option<bool>,
    tags: seq<string>, seoKeywords: seq<string>, items: seq<SetItem>,
    extras: StoredExtras)

  /** The form record (`formData`); `extras` holds the catalogue fields that
      no input of this form edits. */
  datatype SetData = SetData(
    name: string, slug: string, description: string, gradeLevel: string,
    board: string, syllabusYear: string, ageGroup: string,
    price: int, costPrice: int, images: seq<string>,
    isActive: bool, isFeatured: bool,
    tags: seq<string>, seoKeywords: seq<string>, items: seq<SetItem>,
    extras: Extras)

  const Blank := SetData("", "", "", "", "", "", "", 0, 0, [], true, false, [], [], [], NoExtras)

  /** The draft the item inputs start from and return to after an add. */
  const EmptyDraft := SetItem("", "", 1, 0)

  /** The initial `formData`: in create mode the set is active, not featured,
      priced 0 and empty; in edit mode the stored values are copied, a
      missing flag taking its create-mode default. */
  function Seed(schoolSet: Option<SchoolSet>): (d: SetData)
    ensures schoolSet.None? ==> d == Blank
    ensures schoolSet.Some? ==>
      var s := schoolSet.value;
      && d.name == s.name && d.slug == s.slug && d.description == s.description
      && d.gradeLevel == s.gradeLevel && d.board == s.board
      && d.syllabusYear == s.syllabusYear && d.ageGroup == s.ageGroup
      && d.price == s.price && d.costPrice == s.costPrice
      && d.images == s.images && d.tags == s.tags && d.seoKeywords == s.seoKeywords
      && d.items == s.items && d.extras == ExtrasFrom(s.extras)
      && d.isActive == (s.isActive.None? || s.isActive.value)
      && d.isFeatured == (s.isFeatured.Some? && s.isFeatured.value)
  {
    match schoolSet
    case None => Blank
    case Some(s) =>
      SetData(OrText(s.name, ""), OrText(s.slug, ""), OrText(s.description, ""),
              OrText(s.gradeLevel, ""), OrText(s.board, ""), OrText(s.syllabusYear, ""),
              OrText(s.ageGroup, ""),
              s.price, s.costPrice,
              s.images, OrElse(s.isActive, true), OrElse(s.isFeatured, false),
              s.tags, s.seoKeywords, s.items, ExtrasFrom(s.extras))
  }

  /** The keys `handleChange` is called with. */
  datatype SetField = Name | Slug | GradeLevel | Board | AgeGroup | SyllabusYear | Description
                    | Price | CostPrice | IsActive | IsFeatured

  function Key(f: SetField): string {
    match f
    case Name => "name"
    case Slug => "slug"
    case GradeLevel => "gradeLevel"
    case Board => "board"
    case AgeGroup => "ageGroup"
    case SyllabusYear => "syllabusYear"
    case Description => "description"
    case Price => "price"
    case CostPrice => "costPrice"
    case IsActive => "isActive"
    case IsFeatured => "isFeatured"
  }

  /** The price inputs pass a number (`parseFloat(value) || 0`), the
      checkboxes a flag, every other input its text. */
  predicate Fits(f: SetField, v: Value) {
    match f
    case Price => v.Num?
    case CostPrice => v.Num?
    case IsActive => v.Flag?
    case IsFeatured => v.Flag?
    case _ => v.Str?
  }

  function Get(d: SetData, f: SetField): (v: Value)
    ensures Fits(f, v)
  {
    match f
    case Name => Str(d.name)
    case Slug => Str(d.slug)
    case GradeLevel => Str(d.gradeLevel)
    case Board => Str(d.board)
    case AgeGroup => Str(d.ageGroup)
    case SyllabusYear => Str(d.syllabusYear)
    case Description => Str(d.description)
    case Price => Num(d.price)
    case CostPrice => Num(d.costPrice)
    case IsActive => Flag(d.isActive)
    case IsFeatured => Flag(d.isFeatured)
  }

  /** `{ ...prev, [field]: value }`: only the named field changes; the lists
      are never touched by `handleChange`. */
  function Put(d: SetData, f: SetField, v: Value): (r: SetData)
    requires Fits(f, v)
    ensures forall g :: Get(r, g) == if g == f then v else Get(d, g)
    ensures r.images == d.images && r.tags == d.tags && r.seoKeywords == d.seoKeywords
    ensures r.items == d.items && r.extras == d.extras
  {
    match f
    case Name => d.(name := v.text)
    case Slug => d.(slug := v.text)
    case GradeLevel => d.(gradeLevel := v.text)
    case Board => d.(board := v.text)
    case AgeGroup => d.(ageGroup := v.text)
    case SyllabusYear => d.(syllabusYear := v.text)
    case Description => d.(description := v.text)
    case Price => d.(price := v.num)
    case CostPrice => d.(costPrice := v.num)
    case IsActive => d.(isActive := v.flag)
    case IsFeatured => d.(isFeatured := v.flag)
  }

  const NameRequired := "Name is required"
  const GradeRequired := "Grade level is required"
  const PriceRequired := "Valid price is required"
  const ItemsRequired := "At least one item is required"

  /** The dictionary `validateForm` builds: one entry per failed rule. */
  function FormErrors(d: SetData): (e: Errors)
    ensures "name" in e <==> IsBlank(d.name)
    ensures "gradeLevel" in e <==> IsBlank(d.gradeLevel)
    ensures "price" in e <==> d.price <= 0
    ensures "items" in e <==> d.items == []
    ensures e.Keys <= {"name", "gradeLevel", "price", "items"}
    ensures "name" in e ==> e["name"] == NameRequired
    ensures "gradeLevel" in e ==> e["gradeLevel"] == GradeRequired
    ensures "price" in e ==> e["price"] == PriceRequired
    ensures "items" in e ==> e["items"] == ItemsRequired
  {
    var e1 := Check(map[], IsBlank(d.name), "name", NameRequired);
    var e2 := Check(e1, IsBlank(d.gradeLevel), "gradeLevel", GradeRequired);
    var e3 := Check(e2, d.price <= 0, "price", PriceRequired);
    Check(e3, d.items == [], "items", ItemsRequired)
  }

  /** The form can be submitted exactly when every rule holds. */
  predicate Submittable(d: SetData) {
    !IsBlank(d.name) && !IsBlank(d.gradeLevel) && d.price > 0 && d.items != []
  }

  lemma ValidIff(d: SetData)
    ensures FormErrors(d) == map[] <==> Submittable(d)
  {
    var e := FormErrors(d);
    if !Submittable(d) {
      assert "name" in e || "gradeLevel" in e || "price" in e || "items" in e;
    }
  }

  /** `item.quantity * (item.unitPrice || 0)`. */
  function LineTotal(item: SetItem): int {
    item.quantity * item.unitPrice
  }

  /** `calculateTotalPrice`: the `reduce` from the left, starting at 0. */
  function TotalPrice(items: seq<SetItem>): (t: int)
    ensures items == [] ==> t == 0
    ensures (forall i :: 0 <= i < |items| ==> items[i].quantity >= 0 && items[i].unitPrice >= 0) ==> t >= 0
  {
    if items == [] then 0
    else TotalPrice(items[..|items| - 1]) + LineTotal(items[|items| - 1])
  }

  lemma TotalAppend(items: seq<SetItem>, item: SetItem)
    ensures TotalPrice(items + [item]) == TotalPrice(items) + LineTotal(item)
  {
    assert (items + [item])[..|items|] == items;
  }

  /** The total of two lists laid end to end is the sum of their totals, so
      the order of the fold does not matter. */
  lemma {:induction false} TotalConcat(a: seq<SetItem>, b: seq<SetItem>)
    ensures TotalPrice(a + b) == TotalPrice(a) + TotalPrice(b)
    decreases |b|
  {
    if b == [] {
      assert a + b == a;
    } else {
      var init := b[..|b| - 1];
      var last := b[|b| - 1];
      assert b == init + [last];
      assert a + b == (a + init) + [last];
      TotalAppend(a + init, last);
      TotalConcat(a, init);
    }
  }

  /** Removing an item takes exactly its line off the total. */
  lemma TotalDropIndex(items: seq<SetItem>, i: int)
    requires 0 <= i < |items|
    ensures TotalPrice(DropIndex(items, i)) == TotalPrice(items) - LineTotal(items[i])
  {
    var before, after := items[..i], items[i + 1..];
    assert items == before + [items[i]] + after;
    TotalConcat(before + [items[i]], after);
    TotalAppend(before, items[i]);
    TotalConcat(before, after);
  }

  /** The guard of `addItem`. */
  predicate DraftAccepted(draft: SetItem) {
    !IsBlank(draft.productName) && draft.quantity > 0 && draft.unitPrice >= 0
  }

  /** The id of a drafted item: its own, or `temp-<now>` when it has none. */
  function ItemId(draft: SetItem, now: nat): (id: string)
    ensures draft.productId != "" ==> id == draft.productId
    ensures draft.productId == "" ==> id == "temp-" + NatToString(now)
  {
    OrText(draft.productId, "temp-" + NatToString(now))
  }

  /** The item `addItem` stores for a draft. */
  function ItemFrom(draft: SetItem, now: nat): SetItem {
    SetItem(ItemId(draft, now), Trim(draft.productName), draft.quantity, draft.unitPrice)
  }

  /** The items list after `addItem`: one more item at the end when the draft
      is accepted, no change otherwise. */
  function WithDraft(items: seq<SetItem>, draft: SetItem, now: nat): (r: seq<SetItem>)
    ensures DraftAccepted(draft) ==> |r| == |items| + 1 && r[..|items|] == items
    ensures DraftAccepted(draft) ==> r[|items|].productName == Trim(draft.productName) != ""
    ensures DraftAccepted(draft) ==> r[|items|].quantity == draft.quantity
    ensures DraftAccepted(draft) ==> r[|items|].unitPrice == draft.unitPrice
    ensures DraftAccepted(draft) ==> TotalPrice(r) == TotalPrice(items) + draft.quantity * draft.unitPrice
    ensures !DraftAccepted(draft) ==> r == items
  {
    if DraftAccepted(draft) then
      TotalAppend(items, ItemFrom(draft, now));
      assert (items + [ItemFrom(draft, now)])[..|items|] == items;
      items + [ItemFrom(draft, now)]
    else items
  }

  /** Nothing checks whether the product is already in the set: adding an
      item equal to one already present leaves two copies of it. */
  lemma AddDoesNotDeduplicate(items: seq<SetItem>, draft: SetItem, now: nat)
    requires DraftAccepted(draft) && ItemFrom(draft, now) in items
    ensures multiset(WithDraft(items, draft, now))[ItemFrom(draft, now)] >= 2
  {
    var r := WithDraft(items, draft, now);
    assert r == items + [ItemFrom(draft, now)];
    assert multiset(r) == multiset(items) + multiset{ItemFrom(draft, now)};
  }

  /** What every item added through the form satisfies: a name that is
      non-empty and has no surrounding whitespace, a positive quantity and a
      price that is not negative. */
  predicate WellFormed(item: SetItem) {
    var n := item.productName;
    n != [] && !IsSpace(n[0]) && !IsSpace(n[|n| - 1])
    && item.quantity > 0 && item.unitPrice >= 0
  }

  /** A well-formed item's name is what trimming it gives. */
  lemma WellFormedNameTrimmed(item: SetItem)
    requires WellFormed(item)
    ensures Trim(item.productName) == item.productName
  {
  }

  predicate AllWellFormed(items: seq<SetItem>) {
    forall i :: 0 <= i < |items| ==> WellFormed(items[i])
  }

  lemma WithDraftKeepsWellFormed(items: seq<SetItem>, draft: SetItem, now: nat)
    requires AllWellFormed(items)
    ensures AllWellFormed(WithDraft(items, draft, now))
  {
    if DraftAccepted(draft) {
      var item := ItemFrom(draft, now);
      var t := Trim(draft.productName);
      assert t != [] && !IsSpace(t[0]) && !IsSpace(t[|t| - 1]);
      assert WellFormed(item);
      var r := items + [item];
      assert r == WithDraft(items, draft, now);
      forall k | 0 <= k < |r| ensures WellFormed(r[k]) {
        if k < |items| { assert r[k] == items[k]; } else { assert r[k] == item; }
      }
    }
  }

  lemma DropKeepsWellFormed(items: seq<SetItem>, i: int)
    requires AllWellFormed(items)
    ensures AllWellFormed(DropIndex(items, i))
  {
    if 0 <= i < |items| {
      var r := DropIndex(items, i);
      forall k | 0 <= k < |r| ensures WellFormed(r[k]) {
        if k < i { assert r[k] == items[k]; } else { assert r[k] == items[k + 1]; }
      }
    }
  }

  /** A set built only through the form never has a negative total. */
  lemma WellFormedTotalNonNegative(items: seq<SetItem>)
    requires AllWellFormed(items)
    ensures TotalPrice(items) >= 0
  {
    assert forall i :: 0 <= i < |items| ==> items[i].quantity >= 0 && items[i].unitPrice >= 0;
  }

  /** `parseInt(value) || 1`: an unparsable or zero quantity reads as 1. */
  function QuantityInput(parsed: Option<int>): (q: int)
    ensures q != 0
    ensures parsed.Some? && parsed.value != 0 ==> q == parsed.value
    ensures parsed.None? || parsed.value == 0 ==> q == 1
  {
    if parsed.Some? && parsed.value != 0 then parsed.value else 1
  }

  /** `parseFloat(value) || 0`: an unparsable price reads as 0. */
  function UnitPriceInput(parsed: Option<int>): (p: int)
    ensures parsed.Some? ==> p == parsed.value
    ensures parsed.None? ==> p == 0
  {
    if parsed.Some? then parsed.value else 0
  }

  class SchoolSetForm {
    var data: SetData
    var newItem: SetItem
    var newTag: string
    var newImageUrl: string
    var errors: Errors

    constructor (schoolSet: Option<SchoolSet>)
      ensures data == Seed(schoolSet) && newItem == EmptyDraft
      ensures newTag == "" && newImageUrl == "" && errors == map[]
    {
      data := Seed(schoolSet);
      newItem := EmptyDraft;
      newTag, newImageUrl := "", "";
      errors := map[];
    }

    /** Each `Check` is one `if (...) newErrors[key] = message` of the source. */
    method ValidateForm() returns (valid: bool)
      modifies this`errors
      ensures errors == FormErrors(data)
      ensures valid <==> Submittable(data)
    {
      var newErrors: Errors := map[];
      newErrors := Check(newErrors, IsBlank(data.name), "name", NameRequired);
      newErrors := Check(newErrors, IsBlank(data.gradeLevel), "gradeLevel", GradeRequired);
      newErrors := Check(newErrors, data.price <= 0, "price", PriceRequired);
      newErrors := Check(newErrors, data.items == [], "items", ItemsRequired);
      errors := newErrors;
      ValidIff(data);
      valid := newErrors == map[];
    }

    /** Returns the record handed to `onSubmit`, or `None` when it is not called. */
    method HandleSubmit() returns (submitted: Option<SetData>)
      modifies this`errors
      ensures errors == FormErrors(data)
      ensures submitted.None? <==> !Submittable(data)
      ensures submitted.Some? ==> submitted.value == data
    {
      var valid := ValidateForm();
      if !valid {
        return None;
      }
      return Some(data);
    }

    method HandleChange(field: SetField, value: Value)
      requires Fits(field, value)
      modifies this`data, this`errors
      ensures data == Put(old(data), field, value)
      ensures errors == ClearError(old(errors), Key(field))
    {
      data := Put(data, field, value);
      if Key(field) in errors && errors[Key(field)] != "" {
        errors := errors[Key(field) := ""];
      }
    }

    method SetDraftName(value: string)
      modifies this`newItem
      ensures newItem == old(newItem).(productName := value)
    {
      newItem := newItem.(productName := value);
    }

    method SetDraftQuantity(parsed: Option<int>)
      modifies this`newItem
      ensures newItem == old(newItem).(quantity := QuantityInput(parsed))
    {
      newItem := newItem.(quantity := QuantityInput(parsed));
    }

    method SetDraftUnitPrice(parsed: Option<int>)
      modifies this`newItem
      ensures newItem == old(newItem).(unitPrice := UnitPriceInput(parsed))
    {
      newItem := newItem.(unitPrice := UnitPriceInput(parsed));
    }

    /** `addItem`; `now` stands for `Date.now()`. */
    method AddItem(now: nat)
      modifies this`data, this`newItem
      ensures data == old(data).(items := WithDraft(old(data).items, old(newItem), now))
      ensures newItem == if DraftAccepted(old(newItem)) then EmptyDraft else old(newItem)
      ensures AllWellFormed(old(data).items) ==> AllWellFormed(data.items)
    {
      if !IsBlank(newItem.productName) && newItem.quantity > 0 && newItem.unitPrice >= 0 {
        var item := SetItem(OrText(newItem.productId, "temp-" + NatToString(now)),
                            Trim(newItem.productName), newItem.quantity, newItem.unitPrice);
        data := data.(items := data.items + [item]);
        newItem := EmptyDraft;
      }
      if AllWellFormed(old(data).items) { WithDraftKeepsWellFormed(old(data).items, old(newItem), now); }
    }

    method RemoveItem(index: int)
      modifies this`data
      ensures data == old(data).(items := DropIndex(old(data).items, index))
      ensures 0 <= index < |old(data).items| ==>
        TotalPrice(data.items) == TotalPrice(old(data).items) - LineTotal(old(data).items[index])
      ensures AllWellFormed(old(data).items) ==> AllWellFormed(data.items)
    {
      data := data.(items := DropIndex(data.items, index));
      if 0 <= index < |old(data).items| { TotalDropIndex(old(data).items, index); }
      if AllWellFormed(old(data).items) { DropKeepsWellFormed(old(data).items, index); }
    }

    method SetNewTag(value: string)
      modifies this`newTag
      ensures newTag == value
    {
      newTag := value;
    }

    method SetNewImageUrl(value: string)
      modifies this`newImageUrl
      ensures newImageUrl == value
    {
      newImageUrl := value;
    }

    method AddTag()
      modifies this`data, this`newTag
      ensures data == old(data).(tags := AddUnique(old(data).tags, old(newTag)))
      ensures newTag == if Accepts(old(data).tags, old(newTag)) then "" else old(newTag)
      ensures Clean(old(data).tags) ==> Clean(data.tags)
    {
      if !IsBlank(newTag) && Trim(newTag) !in data.tags {
        data := data.(tags := data.tags + [Trim(newTag)]);
        newTag := "";
      }
      if Clean(old(data).tags) { AddKeepsClean(old(data).tags, old(newTag)); }
    }

    method RemoveTag(tag: string)
      modifies this`data
      ensures data == old(data).(tags := RemoveAll(old(data).tags, tag))
      ensures Clean(old(data).tags) ==> Clean(data.tags)
    {
      data := data.(tags := RemoveAll(data.tags, tag));
      if Clean(old(data).tags) { RemoveKeepsClean(old(data).tags, tag); }
    }

    method AddImage()
      modifies this`data, this`newImageUrl
      ensures data == old(data).(images := AddUnique(old(data).images, old(newImageUrl)))
      ensures newImageUrl == if Accepts(old(data).images, old(newImageUrl)) then "" else old(newImageUrl)
      ensures Clean(old(data).images) ==> Clean(data.images)
    {
      if !IsBlank(newImageUrl) && Trim(newImageUrl) !in data.images {
        data := data.(images := data.images + [Trim(newImageUrl)]);
        newImageUrl := "";
      }
      if Clean(old(data).images) { AddKeepsClean(old(data).images, old(newImageUrl)); }
    }

    method RemoveImage(url: string)
      modifies this`data
      ensures data == old(data).(images := RemoveAll(old(data).images, url))
      ensures Clean(old(data).images) ==> Clean(data.images)
    {
      data := data.(images := RemoveAll(data.images, url));
      if Clean(old(data).images) { RemoveKeepsClean(old(data).images, url); }
    }
  }
}
