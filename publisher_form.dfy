/** The publisher editor (src/components/books/PublisherForm.tsx): a form
    record with a nested address, two string lists (specialties, imprints),
    an optional founding year, a one-key validator and the normalised
    payload handed to the submit callback. */
module Publishers {
  import opened Common
  import opened Ascii
  import opened StringLists
  import opened Slugs

  /** A stored publisher as the form reads it; an absent optional text is "". */
  datatype Publisher = Publisher(
    name: string, slug: string, description: string, website: string,
    email: string, phone: string, foundedYear: Option<int>, logoUrl: string,
    isActive: bool, address: Option<Address>,
    specialties: seq<string>, imprints: seq<string>)

  /** The form record (`formData`); `foundedYear` is `None` for `undefined`. */
  datatype PublisherData = PublisherData(
    name: string, slug: string, description: string, website: string,
    email: string, phone: string, foundedYear: Option<int>, logoUrl: string,
    isActive: bool, address: Address,
    specialties: seq<string>, imprints: seq<string>)

  const Blank := PublisherData("", "", "", "", "", "", None, "", true, EmptyAddress, [], [])

  /** The initial `formData`: in create mode the publisher is active, the
      address empty and both lists empty; in edit mode the stored values are
      copied, with a founding year of 0 read as missing. */
  function Seed(publisher: Option<Publisher>): (d: PublisherData)
    ensures publisher.None? ==> d == Blank
    ensures publisher.None? ==> d.isActive && d.specialties == [] && d.imprints == []
    ensures publisher.Some? ==>
      var p := publisher.value;
      && d.name == p.name && d.slug == p.slug && d.description == p.description
      && d.website == p.website && d.email == p.email && d.phone == p.phone
      && d.logoUrl == p.logoUrl && d.isActive == p.isActive
      && d.specialties == p.specialties && d.imprints == p.imprints
      && d.address == (if p.address.Some? then p.address.value else EmptyAddress)
      && (d.foundedYear.Some? <==> p.foundedYear.Some? && p.foundedYear.value != 0)
      && (d.foundedYear.Some? ==> d.foundedYear == p.foundedYear)
  {
    match publisher
    case None => Blank
    case Some(p) =>
      PublisherData(OrText(p.name, ""), OrText(p.slug, ""), OrText(p.description, ""),
                    OrText(p.website, ""), OrText(p.email, ""), OrText(p.phone, ""),
                    NonZero(p.foundedYear), OrText(p.logoUrl, ""), p.isActive,
                    match p.address case Some(a) => a case None => EmptyAddress,
                    p.specialties, p.imprints)
  }

  /** The keys `handleChange` is called with. */
  datatype PublisherField = Name | Slug | Description | Website | Email | Phone
                          | FoundedYear | LogoUrl | IsActive

  function Key(f: PublisherField): string {
    match f
    case Name => "name"
    case Slug => "slug"
    case Description => "description"
    case Website => "website"
    case Email => "email"
    case Phone => "phone"
    case FoundedYear => "foundedYear"
    case LogoUrl => "logoUrl"
    case IsActive => "isActive"
  }

  /** The year input passes `parseInt(value)` or `undefined`; the checkbox a
      flag; every other input its text. */
  predicate Fits(f: PublisherField, v: Value) {
    match f
    case FoundedYear => v.OptNum?
    case IsActive => v.Flag?
    case _ => v.Str?
  }

  function Get(d: PublisherData, f: PublisherField): (v: Value)
    ensures Fits(f, v)
  {
    match f
    case Name => Str(d.name)
    case Slug => Str(d.slug)
    case Description => Str(d.description)
    case Website => Str(d.website)
    case Email => Str(d.email)
    case Phone => Str(d.phone)
    case FoundedYear => OptNum(d.foundedYear)
    case LogoUrl => Str(d.logoUrl)
    case IsActive => Flag(d.isActive)
  }

  /** `{ ...prev, [field]: value }`: only the named field changes. */
  function Put(d: PublisherData, f: PublisherField, v: Value): (r: PublisherData)
    requires Fits(f, v)
    ensures forall g :: Get(r, g) == if g == f then v else Get(d, g)
    ensures r.address == d.address && r.specialties == d.specialties && r.imprints == d.imprints
  {
    match f
    case Name => d.(name := v.text)
    case Slug => d.(slug := v.text)
    case Description => d.(description := v.text)
    case Website => d.(website := v.text)
    case Email => d.(email := v.text)
    case Phone => d.(phone := v.text)
    case FoundedYear => d.(foundedYear := v.opt)
    case LogoUrl => d.(logoUrl := v.text)
    case IsActive => d.(isActive := v.flag)
  }

  const NameRequired := "Publisher name is required"

  /** The dictionary `validateForm` builds. */
  function FormErrors(d: PublisherData): (e: Errors)
    ensures "name" in e <==> IsBlank(d.name)
    ensures e.Keys <= {"name"}
    ensures "name" in e ==> e["name"] == NameRequired
  {
    if IsBlank(d.name) then map["name" := NameRequired] else map[]
  }

  /** What `handleSubmit` passes to `onSubmit`: the record spread, with the
      four normalised keys overridden (`None` for `undefined`). */
  datatype PublisherPayload = PublisherPayload(
    fields: PublisherData, address: Option<Address>,
    specialties: Option<seq<string>>, imprints: Option<seq<string>>,
    foundedYear: Option<int>)

  function SubmitPayload(d: PublisherData): (p: PublisherPayload)
    ensures p.fields == d
    ensures p.address.None? <==> d.address == EmptyAddress
    ensures p.address.Some? ==> p.address.value == d.address
    ensures p.specialties.None? <==> d.specialties == []
    ensures p.specialties.Some? ==> p.specialties.value == d.specialties
    ensures p.imprints.None? <==> d.imprints == []
    ensures p.imprints.Some? ==> p.imprints.value == d.imprints
    ensures p.foundedYear.None? <==> d.foundedYear.None? || d.foundedYear.value == 0
    ensures p.foundedYear.Some? ==> p.foundedYear == d.foundedYear
  {
    AnyPartSetIff(d.address);
    PublisherPayload(
      d,
      if AnyPartSet(d.address) then Some(d.address) else None,
      if |d.specialties| > 0 then Some(d.specialties) else None,
      if |d.imprints| > 0 then Some(d.imprints) else None,
      NonZero(d.foundedYear))
  }

  class PublisherForm {
    var data: PublisherData
    var newSpecialty: string
    var newImprint: string
    var errors: Errors

    constructor (publisher: Option<Publisher>)
      ensures data == Seed(publisher)
      ensures newSpecialty == "" && newImprint == "" && errors == map[]
    {
      data := Seed(publisher);
      newSpecialty, newImprint := "", "";
      errors := map[];
    }

    method ValidateForm() returns (valid: bool)
      modifies this`errors
      ensures errors == FormErrors(data)
      ensures valid <==> !IsBlank(data.name)
    {
      var newErrors: Errors := map[];
      if IsBlank(data.name) {
        newErrors := newErrors["name" := NameRequired];
      }
      errors := newErrors;
      valid := |newErrors| == 0;
    }

    /** Returns what is handed to `onSubmit`, or `None` when it is not called. */
    method HandleSubmit() returns (submitted: Option<PublisherPayload>)
      modifies this`errors
      ensures errors == FormErrors(data)
      ensures submitted.None? <==> IsBlank(data.name)
      ensures submitted.Some? ==> submitted.value == SubmitPayload(data)
    {
      var valid := ValidateForm();
      if !valid {
        return None;
      }
      return Some(SubmitPayload(data));
    }

    method HandleChange(field: PublisherField, value: Value)
      requires Fits(field, value)
      modifies this`data, this`errors
      ensures data == Put(old(data), field, value)
      ensures errors == ClearError(old(errors), Key(field))
    {
      data := Put(data, field, value);
      if Key(field) in errors && errors[Key(field)] != "" {
        errors := errors[Key(field) := ""];
      }
    }

    /** Replaces one address component; the errors are left alone. */
    method HandleAddressChange(part: AddressPart, value: string)
      modifies this`data
      ensures data == old(data).(address := WithPart(old(data).address, part, value))
    {
      data := data.(address := WithPart(data.address, part, value));
    }

    method SetNewSpecialty(value: string)
      modifies this`newSpecialty
      ensures newSpecialty == value
    {
      newSpecialty := value;
    }

    method SetNewImprint(value: string)
      modifies this`newImprint
      ensures newImprint == value
    {
      newImprint := value;
    }

    method AddSpecialty()
      modifies this`data, this`newSpecialty
      ensures data == old(data).(specialties := AddUnique(old(data).specialties, old(newSpecialty)))
      ensures newSpecialty == if Accepts(old(data).specialties, old(newSpecialty)) then "" else old(newSpecialty)
      ensures Clean(old(data).specialties) ==> Clean(data.specialties)
    {
      if !IsBlank(newSpecialty) && Trim(newSpecialty) !in data.specialties {
        data := data.(specialties := data.specialties + [Trim(newSpecialty)]);
        newSpecialty := "";
      }
      if Clean(old(data).specialties) { AddKeepsClean(old(data).specialties, old(newSpecialty)); }
    }

    method RemoveSpecialty(specialty: string)
      modifies this`data
      ensures data == old(data).(specialties := RemoveAll(old(data).specialties, specialty))
      ensures Clean(old(data).specialties) ==> Clean(data.specialties)
    {
      data := data.(specialties := RemoveAll(data.specialties, specialty));
      if Clean(old(data).specialties) { RemoveKeepsClean(old(data).specialties, specialty); }
    }

    method AddImprint()
      modifies this`data, this`newImprint
      ensures data == old(data).(imprints := AddUnique(old(data).imprints, old(newImprint)))
      ensures newImprint == if Accepts(old(data).imprints, old(newImprint)) then "" else old(newImprint)
      ensures Clean(old(data).imprints) ==> Clean(data.imprints)
    {
      if !IsBlank(newImprint) && Trim(newImprint) !in data.imprints {
        data := data.(imprints := data.imprints + [Trim(newImprint)]);
        newImprint := "";
      }
      if Clean(old(data).imprints) { AddKeepsClean(old(data).imprints, old(newImprint)); }
    }

    method RemoveImprint(imprint: string)
      modifies this`data
      ensures data == old(data).(imprints := RemoveAll(old(data).imprints, imprint))
      ensures Clean(old(data).imprints) ==> Clean(data.imprints)
    {
      data := data.(imprints := RemoveAll(data.imprints, imprint));
      if Clean(old(data).imprints) { RemoveKeepsClean(old(data).imprints, imprint); }
    }

    /** Writes the slug of the current name through `handleChange('slug', ...)`. */
    method GenerateSlug()
      modifies this`data, this`errors
      ensures data == Put(old(data), Slug, Str(Slugify(old(data).name)))
      ensures errors == ClearError(old(errors), "slug")
      ensures IsSlug(data.slug)
    {
      SlugAlphabet(data.name);
      HandleChange(Slug, Str(Slugify(data.name)));
    }
  }
}
