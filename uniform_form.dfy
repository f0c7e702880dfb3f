/** The uniform editor (src/components/products/UniformForm.tsx): a product
    record with five string lists edited through one generic add/remove
    pair, an image list, a four-key validator and the create-mode defaults. */
module Uniforms {
  import opened Common
  import opened Ascii
  import opened StringLists

  /** The choices of the type, gender and size selects. */
  const UniformTypes: seq<string> := ["school", "sports", "formal", "casual"]
  const GenderOptions: seq<string> := ["unisex", "boys", "girls"]
  const SizeOptions: seq<string> := ["XS", "S", "M", "L", "XL", "XXL", "XXXL"]

  /** A stored uniform as the form reads it; an absent text is "", an absent
      number 0, and the two flags may be missing. */
  datatype Uniform = Uniform(
    name: string, slug: string, description: string, schoolName: string,
    gradeLevel: string, uniformType: string, gender: string,
    sizes: seq<string>, colors: seq<string>, materials: seq<string>,
    careInstructions: string, season: string, price: int, costPrice: int,
    images: seq<string>, isActive: Option<bool>, isFeatured: Option<bool>,
    tags: seq<string>, seoKeywords: seq<string>, extras: StoredExtras)

  /** The form record (`formData`); `uniformType` is the `type` key and
      `extras` holds the catalogue fields that no input of this form edits. */
  datatype UniformData = UniformData(
    name: string, slug: string, description: string, schoolName: string,
    gradeLevel: string, uniformType: string, gender: string,
    sizes: seq<string>, colors: seq<string>, materials: seq<string>,
    careInstructions: string, season: string, price: int, costPrice: int,
    images: seq<string>, isActive: bool, isFeatured: bool,
    tags: seq<string>, seoKeywords: seq<string>, extras: Extras)

  const Blank := UniformData("", "", "", "", "", "school", "unisex", [], [], [], "", "", 0, 0,
                             [], true, false, [], [], NoExtras)

  /** The initial `formData`: the stored values in edit mode, with an empty
      type or gender replaced by 'school' / 'unisex' and a missing flag by its
      default; the defaults in create mode. */
  function Seed(uniform: Option<Uniform>): (d: UniformData)
    ensures uniform.None? ==> d == Blank
    ensures uniform.Some? ==>
      var u := uniform.value;
      && d.name == u.name && d.slug == u.slug && d.description == u.description
      && d.schoolName == u.schoolName && d.gradeLevel == u.gradeLevel
      && d.uniformType == (if u.uniformType == "" then "school" else u.uniformType)
      && d.gender == (if u.gender == "" then "unisex" else u.gender)
      && d.sizes == u.sizes && d.colors == u.colors && d.materials == u.materials
      && d.careInstructions == u.careInstructions && d.season == u.season
      && d.price == u.price && d.costPrice == u.costPrice && d.images == u.images
      && d.isActive == (u.isActive.None? || u.isActive.value)
      && d.isFeatured == (u.isFeatured.Some? && u.isFeatured.value)
      && d.tags == u.tags && d.seoKeywords == u.seoKeywords
      && d.extras == ExtrasFrom(u.extras)
    ensures d.uniformType != "" && d.gender != ""
  {
    match uniform
    case None => Blank
    case Some(u) =>
      UniformData(OrText(u.name, ""), OrText(u.slug, ""), OrText(u.description, ""),
                  OrText(u.schoolName, ""), OrText(u.gradeLevel, ""),
                  OrText(u.uniformType, "school"), OrText(u.gender, "unisex"),
                  u.sizes, u.colors, u.materials,
                  OrText(u.careInstructions, ""), OrText(u.season, ""),
                  u.price, u.costPrice,
                  u.images, OrElse(u.isActive, true), OrElse(u.isFeatured, false),
                  u.tags, u.seoKeywords, ExtrasFrom(u.extras))
  }

  /** The keys `handleChange` is called with. */
  datatype UniformField = Name | Slug | SchoolName | GradeLevel | Type | Gender | Description
                        | Price | CostPrice | IsActive | IsFeatured

  function Key(f: UniformField): string {
    match f
    case Name => "name"
    case Slug => "slug"
    case SchoolName => "schoolName"
    case GradeLevel => "gradeLevel"
    case Type => "type"
    case Gender => "gender"
    case Description => "description"
    case Price => "price"
    case CostPrice => "costPrice"
    case IsActive => "isActive"
    case IsFeatured => "isFeatured"
  }

  predicate Fits(f: UniformField, v: Value) {
    match f
    case Price => v.Num?
    case CostPrice => v.Num?
    case IsActive => v.Flag?
    case IsFeatured => v.Flag?
    case _ => v.Str?
  }

  function Get(d: UniformData, f: UniformField): (v: Value)
    ensures Fits(f, v)
  {
    match f
    case Name => Str(d.name)
    case Slug => Str(d.slug)
    case SchoolName => Str(d.schoolName)
    case GradeLevel => Str(d.gradeLevel)
    case Type => Str(d.uniformType)
    case Gender => Str(d.gender)
    case Description => Str(d.description)
    case Price => Num(d.price)
    case CostPrice => Num(d.costPrice)
    case IsActive => Flag(d.isActive)
    case IsFeatured => Flag(d.isFeatured)
  }

  /** The five lists `addItem` / `removeItem` accept. */
  datatype ListField = Sizes | Colors | Materials | Tags | SeoKeywords

  function ListOf(d: UniformData, f: ListField): seq<string> {
    match f
    case Sizes => d.sizes
    case Colors => d.colors
    case Materials => d.materials
    case Tags => d.tags
    case SeoKeywords => d.seoKeywords
  }

  /** `{ ...prev, [field]: value }` for a scalar field: only that field changes. */
  function Put(d: UniformData, f: UniformField, v: Value): (r: UniformData)
    requires Fits(f, v)
    ensures forall g :: Get(r, g) == if g == f then v else Get(d, g)
    ensures forall l :: ListOf(r, l) == ListOf(d, l)
    ensures r.images == d.images && r.extras == d.extras
  {
    match f
    case Name => d.(name := v.text)
    case Slug => d.(slug := v.text)
    case SchoolName => d.(schoolName := v.text)
    case GradeLevel => d.(gradeLevel := v.text)
    case Type => d.(uniformType := v.text)
    case Gender => d.(gender := v.text)
    case Description => d.(description := v.text)
    case Price => d.(price := v.num)
    case CostPrice => d.(costPrice := v.num)
    case IsActive => d.(isActive := v.flag)
    case IsFeatured => d.(isFeatured := v.flag)
  }

  /** `{ ...prev, [field]: xs }` for a list field: only that list changes. */
  function WithList(d: UniformData, f: ListField, xs: seq<string>): (r: UniformData)
    ensures forall l :: ListOf(r, l) == if l == f then xs else ListOf(d, l)
    ensures forall g :: Get(r, g) == Get(d, g)
    ensures r.images == d.images && r.extras == d.extras
  {
    match f
    case Sizes => d.(sizes := xs)
    case Colors => d.(colors := xs)
    case Materials => d.(materials := xs)
    case Tags => d.(tags := xs)
    case SeoKeywords => d.(seoKeywords := xs)
  }

  const NameRequired := "Name is required"
  const SchoolRequired := "School name is required"
  const TypeRequired := "Type is required"
  const PriceRequired := "Valid price is required"

  /** The dictionary `validateForm` builds: one entry per failed rule. */
  function FormErrors(d: UniformData): (e: Errors)
    ensures "name" in e <==> IsBlank(d.name)
    ensures "schoolName" in e <==> IsBlank(d.schoolName)
    ensures "type" in e <==> d.uniformType == ""
    ensures "price" in e <==> d.price <= 0
    ensures e.Keys <= {"name", "schoolName", "type", "price"}
    ensures "name" in e ==> e["name"] == NameRequired
    ensures "schoolName" in e ==> e["schoolName"] == SchoolRequired
    ensures "type" in e ==> e["type"] == TypeRequired
    ensures "price" in e ==> e["price"] == PriceRequired
  {
    var e1 := Check(map[], IsBlank(d.name), "name", NameRequired);
    var e2 := Check(e1, IsBlank(d.schoolName), "schoolName", SchoolRequired);
    var e3 := Check(e2, d.uniformType == "", "type", TypeRequired);
    Check(e3, d.price <= 0, "price", PriceRequired)
  }

  predicate Submittable(d: UniformData) {
    !IsBlank(d.name) && !IsBlank(d.schoolName) && d.uniformType != "" && d.price > 0
  }

  lemma ValidIff(d: UniformData)
    ensures FormErrors(d) == map[] <==> Submittable(d)
  {
    var e := FormErrors(d);
    if !Submittable(d) {
      assert "name" in e || "schoolName" in e || "type" in e || "price" in e;
    }
  }

  /** A fresh form fails on exactly the name, the school name and the price:
      the type already holds 'school'. */
  lemma FreshFormErrors()
    ensures FormErrors(Seed(None)).Keys == {"name", "schoolName", "price"}
  {
    var e := FormErrors(Seed(None));
    assert AllSpace(Blank.name) && AllSpace(Blank.schoolName);
    assert "name" in e && "schoolName" in e && "price" in e && "type" !in e;
  }

  /** The type is only ever set from its select, so once the form is seeded
      the 'type' rule cannot fail. */
  lemma TypeFromSelectNeverMissing(d: UniformData, t: string)
    requires d.uniformType != "" && t in UniformTypes
    ensures "type" !in FormErrors(d)
    ensures "type" !in FormErrors(Put(d, Type, Str(t)))
  {
    assert t != "" by {
      var i :| 0 <= i < |UniformTypes| && UniformTypes[i] == t;
      assert |UniformTypes[i]| > 0;
    }
    var r := Put(d, Type, Str(t));
    assert Get(r, Type) == Str(t);
    assert r.uniformType == t;
  }

  class UniformForm {
    var data: UniformData
    var newSize: string
    var newColor: string
    var newImageUrl: string
    var errors: Errors

    constructor (uniform: Option<Uniform>)
      ensures data == Seed(uniform)
      ensures newSize == "" && newColor == "" && newImageUrl == "" && errors == map[]
    {
      data := Seed(uniform);
      newSize, newColor, newImageUrl := "", "", "";
      errors := map[];
    }

    /** Each `Check` is one `if (...) newErrors[key] = message` of the source. */
    method ValidateForm() returns (valid: bool)
      modifies this`errors
      ensures errors == FormErrors(data)
      ensures valid <==> Submittable(data)
    {
      var newErrors: Errors := map[];
      newErrors := Check(newErrors, IsBlank(data.name), "name", NameRequired);
      newErrors := Check(newErrors, IsBlank(data.schoolName), "schoolName", SchoolRequired);
      newErrors := Check(newErrors, data.uniformType == "", "type", TypeRequired);
      newErrors := Check(newErrors, data.price <= 0, "price", PriceRequired);
      errors := newErrors;
      ValidIff(data);
      valid := newErrors == map[];
    }

    /** Returns the record handed to `onSubmit`, or `None` when it is not called. */
    method HandleSubmit() returns (submitted: Option<UniformData>)
      modifies this`errors
      ensures errors == FormErrors(data)
      ensures submitted.None? <==> !Submittable(data)
      ensures submitted.Some? ==> submitted.value == data
    {
      var valid := ValidateForm();
      if !valid {
        return None;
      }
      return Some(data);
    }

    method HandleChange(field: UniformField, value: Value)
      requires Fits(field, value)
      modifies this`data, this`errors
      ensures data == Put(old(data), field, value)
      ensures errors == ClearError(old(errors), Key(field))
    {
      data := Put(data, field, value);
      if Key(field) in errors && errors[Key(field)] != "" {
        errors := errors[Key(field) := ""];
      }
    }

    /** `addItem(field, item)`: the trimmed item joins that one list when it
        is non-blank and not already there. */
    method AddItem(field: ListField, item: string)
      modifies this`data
      ensures data == WithList(old(data), field, AddUnique(ListOf(old(data), field), item))
      ensures Clean(ListOf(old(data), field)) ==> Clean(ListOf(data, field))
    {
      var current := ListOf(data, field);
      if !IsBlank(item) && Trim(item) !in current {
        data := WithList(data, field, current + [Trim(item)]);
      }
      if Clean(current) { AddKeepsClean(current, item); }
    }

    /** `removeItem(field, item)`: every copy of the item leaves that one list. */
    method RemoveItem(field: ListField, item: string)
      modifies this`data
      ensures data == WithList(old(data), field, RemoveAll(ListOf(old(data), field), item))
      ensures Clean(ListOf(old(data), field)) ==> Clean(ListOf(data, field))
    {
      var current := ListOf(data, field);
      data := WithList(data, field, RemoveAll(current, item));
      if Clean(current) { RemoveKeepsClean(current, item); }
    }

    method SetNewSize(value: string)
      modifies this`newSize
      ensures newSize == value
    {
      newSize := value;
    }

    method SetNewColor(value: string)
      modifies this`newColor
      ensures newColor == value
    {
      newColor := value;
    }

    method SetNewImageUrl(value: string)
      modifies this`newImageUrl
      ensures newImageUrl == value
    {
      newImageUrl := value;
    }

    /** The size button: `addItem('sizes', newSize)`, then the draft is
        cleared whether or not the size was taken. */
    method AddSizeClicked()
      modifies this`data, this`newSize
      ensures data == WithList(old(data), Sizes, AddUnique(old(data).sizes, old(newSize)))
      ensures newSize == ""
    {
      AddItem(Sizes, newSize);
      newSize := "";
    }

    /** The colour button, with the same unconditional clearing. */
    method AddColorClicked()
      modifies this`data, this`newColor
      ensures data == WithList(old(data), Colors, AddUnique(old(data).colors, old(newColor)))
      ensures newColor == ""
    {
      AddItem(Colors, newColor);
      newColor := "";
    }

    method AddImage()
      modifies this`data, this`newImageUrl
      ensures data == old(data).(images := AddUnique(old(data).images, old(newImageUrl)))
      ensures newImageUrl == if Accepts(old(data).images, old(newImageUrl)) then "" else old(newImageUrl)
      ensures Clean(old(data).images) ==> Clean(data.images)
    {
      if !IsBlank(newImageUrl) && Trim(newImageUrl) !in data.images {
        data := data.(images := data.images + [Trim(newImageUrl)]);
        newImageUrl := "";
      }
      if Clean(old(data).images) { AddKeepsClean(old(data).images, old(newImageUrl)); }
    }

    method RemoveImage(url: string)
      modifies this`data
      ensures data == old(data).(images := RemoveAll(old(data).images, url))
      ensures Clean(old(data).images) ==> Clean(data.images)
    {
      data := data.(images := RemoveAll(data.images, url));
      if Clean(old(data).images) { RemoveKeepsClean(old(data).images, url); }
    }
  }
}
