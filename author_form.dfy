/** The author editor (src/components/books/AuthorForm.tsx): a form record
    seeded from an existing author or from defaults, two string lists
    (awards, genres) kept by the shared add/remove rule, a one-key
    validator and the payload handed to the submit callback. */
module Authors {
  import opened Common
  import opened Ascii
  import opened StringLists
  import opened Slugs

  datatype SocialMedia = SocialMedia(twitter: string, facebook: string, instagram: string, linkedin: string)

  datatype Platform = Twitter | Facebook | Instagram | Linkedin

  function HandleOf(sm: SocialMedia, p: Platform): string {
    match p
    case Twitter => sm.twitter
    case Facebook => sm.facebook
    case Instagram => sm.instagram
    case Linkedin => sm.linkedin
  }

  /** `{ ...prev.socialMedia, [platform]: value }`. */
  function WithHandle(sm: SocialMedia, p: Platform, v: string): (r: SocialMedia)
    ensures forall q :: HandleOf(r, q) == if q == p then v else HandleOf(sm, q)
  {
    match p
    case Twitter => sm.(twitter := v)
    case Facebook => sm.(facebook := v)
    case Instagram => sm.(instagram := v)
    case Linkedin => sm.(linkedin := v)
  }

  /** `Object.values(socialMedia).some(val => val)`. */
  predicate AnyHandle(sm: SocialMedia) {
    exists p :: HandleOf(sm, p) != ""
  }

  const NoHandles := SocialMedia("", "", "", "")

  /** A stored author as the form reads it; an absent optional text is "". */
  datatype Author = Author(
    name: string, slug: string, biography: string, dateOfBirth: string,
    dateOfDeath: string, nationality: string, website: string, photoUrl: string,
    isActive: bool, socialMedia: Option<SocialMedia>,
    awards: seq<string>, genres: seq<string>)

  /** The form record (`formData`). */
  datatype AuthorData = AuthorData(
    name: string, slug: string, biography: string, dateOfBirth: string,
    dateOfDeath: string, nationality: string, website: string, photoUrl: string,
    isActive: bool, socialMedia: SocialMedia,
    awards: seq<string>, genres: seq<string>)

  const Blank := AuthorData("", "", "", "", "", "", "", "", true, NoHandles, [], [])

  /** The initial `formData`: the author's values in edit mode, the defaults otherwise. */
  function Seed(author: Option<Author>): (d: AuthorData)
    ensures author.None? ==> d == Blank
    ensures author.Some? ==>
      var a := author.value;
      && d.name == a.name && d.slug == a.slug && d.biography == a.biography
      && d.dateOfBirth == a.dateOfBirth && d.dateOfDeath == a.dateOfDeath
      && d.nationality == a.nationality && d.website == a.website && d.photoUrl == a.photoUrl
      && d.isActive == a.isActive && d.awards == a.awards && d.genres == a.genres
      && d.socialMedia == (if a.socialMedia.Some? then a.socialMedia.value else NoHandles)
  {
    match author
    case None => Blank
    case Some(a) =>
      AuthorData(OrText(a.name, ""), OrText(a.slug, ""), OrText(a.biography, ""),
                 OrText(a.dateOfBirth, ""), OrText(a.dateOfDeath, ""),
                 OrText(a.nationality, ""), OrText(a.website, ""), OrText(a.photoUrl, ""),
                 a.isActive,
                 match a.socialMedia case Some(sm) => sm case None => NoHandles,
                 a.awards, a.genres)
  }

  /** The keys `handleChange` is called with. */
  datatype AuthorField = Name | Slug | Biography | DateOfBirth | DateOfDeath | Nationality
                       | Website | PhotoUrl | IsActive

  function Key(f: AuthorField): string {
    match f
    case Name => "name"
    case Slug => "slug"
    case Biography => "biography"
    case DateOfBirth => "dateOfBirth"
    case DateOfDeath => "dateOfDeath"
    case Nationality => "nationality"
    case Website => "website"
    case PhotoUrl => "photoUrl"
    case IsActive => "isActive"
  }

  /** The value a field's input produces: a checkbox state for `isActive`, text otherwise. */
  predicate Fits(f: AuthorField, v: Value) {
    if f == IsActive then v.Flag? else v.Str?
  }

  function Get(d: AuthorData, f: AuthorField): (v: Value)
    ensures Fits(f, v)
  {
    match f
    case Name => Str(d.name)
    case Slug => Str(d.slug)
    case Biography => Str(d.biography)
    case DateOfBirth => Str(d.dateOfBirth)
    case DateOfDeath => Str(d.dateOfDeath)
    case Nationality => Str(d.nationality)
    case Website => Str(d.website)
    case PhotoUrl => Str(d.photoUrl)
    case IsActive => Flag(d.isActive)
  }

  /** `{ ...prev, [field]: value }`: the named field takes the value, every
      other field (the nested social handles and both lists included) keeps its own. */
  function Put(d: AuthorData, f: AuthorField, v: Value): (r: AuthorData)
    requires Fits(f, v)
    ensures forall g :: Get(r, g) == if g == f then v else Get(d, g)
    ensures r.socialMedia == d.socialMedia && r.awards == d.awards && r.genres == d.genres
  {
    match f
    case Name => d.(name := v.text)
    case Slug => d.(slug := v.text)
    case Biography => d.(biography := v.text)
    case DateOfBirth => d.(dateOfBirth := v.text)
    case DateOfDeath => d.(dateOfDeath := v.text)
    case Nationality => d.(nationality := v.text)
    case Website => d.(website := v.text)
    case PhotoUrl => d.(photoUrl := v.text)
    case IsActive => d.(isActive := v.flag)
  }

  const NameRequired := "Author name is required"

  /** The dictionary `validateForm` builds. */
  function FormErrors(d: AuthorData): (e: Errors)
    ensures "name" in e <==> IsBlank(d.name)
    ensures e.Keys <= {"name"}
    ensures "name" in e ==> e["name"] == NameRequired
  {
    if IsBlank(d.name) then map["name" := NameRequired] else map[]
  }

  /** What `handleSubmit` passes to `onSubmit`: the record spread, with
      `socialMedia` overridden (`None` for `undefined`). */
  datatype AuthorPayload = AuthorPayload(fields: AuthorData, socialMedia: Option<SocialMedia>)

  function SubmitPayload(d: AuthorData): (p: AuthorPayload)
    ensures p.fields == d
    ensures p.socialMedia.None? <==> d.socialMedia.twitter == "" && d.socialMedia.facebook == ""
                                     && d.socialMedia.instagram == "" && d.socialMedia.linkedin == ""
    ensures p.socialMedia.Some? ==> p.socialMedia.value == d.socialMedia
  {
    assert HandleOf(d.socialMedia, Twitter) == d.socialMedia.twitter;
    assert HandleOf(d.socialMedia, Facebook) == d.socialMedia.facebook;
    assert HandleOf(d.socialMedia, Instagram) == d.socialMedia.instagram;
    assert HandleOf(d.socialMedia, Linkedin) == d.socialMedia.linkedin;
    AuthorPayload(d, if AnyHandle(d.socialMedia) then Some(d.socialMedia) else None)
  }

  class AuthorForm {
    var data: AuthorData
    var newAward: string
    var newGenre: string
    var errors: Errors

    constructor (author: Option<Author>)
      ensures data == Seed(author)
      ensures newAward == "" && newGenre == "" && errors == map[]
    {
      data := Seed(author);
      newAward, newGenre := "", "";
      errors := map[];
    }

    method ValidateForm() returns (valid: bool)
      modifies this`errors
      ensures errors == FormErrors(data)
      ensures valid <==> !IsBlank(data.name)
    {
      var newErrors: Errors := map[];
      if IsBlank(data.name) {
        newErrors := newErrors["name" := NameRequired];
      }
      errors := newErrors;
      valid := |newErrors| == 0;
    }

    /** Returns what is handed to `onSubmit`, or `None` when it is not called. */
    method HandleSubmit() returns (submitted: Option<AuthorPayload>)
      modifies this`errors
      ensures errors == FormErrors(data)
      ensures submitted.None? <==> IsBlank(data.name)
      ensures submitted.Some? ==> submitted.value == SubmitPayload(data)
    {
      var valid := ValidateForm();
      if !valid {
        return None;
      }
      return Some(SubmitPayload(data));
    }

    method HandleChange(field: AuthorField, value: Value)
      requires Fits(field, value)
      modifies this`data, this`errors
      ensures data == Put(old(data), field, value)
      ensures errors == ClearError(old(errors), Key(field))
    {
      data := Put(data, field, value);
      if Key(field) in errors && errors[Key(field)] != "" {
        errors := errors[Key(field) := ""];
      }
    }

    /** Changes one handle; unlike `handleChange` it leaves the errors alone. */
    method HandleSocialMediaChange(platform: Platform, value: string)
      modifies this`data
      ensures data == old(data).(socialMedia := WithHandle(old(data).socialMedia, platform, value))
    {
      data := data.(socialMedia := WithHandle(data.socialMedia, platform, value));
    }

    method SetNewAward(value: string)
      modifies this`newAward
      ensures newAward == value
    {
      newAward := value;
    }

    method SetNewGenre(value: string)
      modifies this`newGenre
      ensures newGenre == value
    {
      newGenre := value;
    }

    method AddAward()
      modifies this`data, this`newAward
      ensures data == old(data).(awards := AddUnique(old(data).awards, old(newAward)))
      ensures newAward == if Accepts(old(data).awards, old(newAward)) then "" else old(newAward)
      ensures Clean(old(data).awards) ==> Clean(data.awards)
    {
      if !IsBlank(newAward) && Trim(newAward) !in data.awards {
        data := data.(awards := data.awards + [Trim(newAward)]);
        newAward := "";
      }
      if Clean(old(data).awards) { AddKeepsClean(old(data).awards, old(newAward)); }
    }

    method RemoveAward(award: string)
      modifies this`data
      ensures data == old(data).(awards := RemoveAll(old(data).awards, award))
      ensures Clean(old(data).awards) ==> Clean(data.awards)
    {
      data := data.(awards := RemoveAll(data.awards, award));
      if Clean(old(data).awards) { RemoveKeepsClean(old(data).awards, award); }
    }

    method AddGenre()
      modifies this`data, this`newGenre
      ensures data == old(data).(genres := AddUnique(old(data).genres, old(newGenre)))
      ensures newGenre == if Accepts(old(data).genres, old(newGenre)) then "" else old(newGenre)
      ensures Clean(old(data).genres) ==> Clean(data.genres)
    {
      if !IsBlank(newGenre) && Trim(newGenre) !in data.genres {
        data := data.(genres := data.genres + [Trim(newGenre)]);
        newGenre := "";
      }
      if Clean(old(data).genres) { AddKeepsClean(old(data).genres, old(newGenre)); }
    }

    method RemoveGenre(genre: string)
      modifies this`data
      ensures data == old(data).(genres := RemoveAll(old(data).genres, genre))
      ensures Clean(old(data).genres) ==> Clean(data.genres)
    {
      data := data.(genres := RemoveAll(data.genres, genre));
      if Clean(old(data).genres) { RemoveKeepsClean(old(data).genres, genre); }
    }

    /** Writes the slug of the current name through `handleChange('slug', ...)`. */
    method GenerateSlug()
      modifies this`data, this`errors
      ensures data == Put(old(data), Slug, Str(Slugify(old(data).name)))
      ensures errors == ClearError(old(errors), "slug")
      ensures IsSlug(data.slug)
    {
      SlugAlphabet(data.name);
      HandleChange(Slug, Str(Slugify(data.name)));
    }
  }
}
