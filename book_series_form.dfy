/** The book-series editor (src/components/books/BookSeriesForm.tsx): a flat
    form record with two optional publication years, a one-key validator and
    the year normalisation applied on submit. */
module Series {
  import opened Common
  import opened Ascii
  import opened Slugs

  /** A stored series as the form reads it; an absent optional text is "". */
  datatype BookSeries = BookSeries(
    name: string, slug: string, description: string, authorId: string,
    publisherId: string, genre: string, ageGroup: string,
    isActive: bool, isOngoing: bool,
    firstPublishedYear: Option<int>, lastPublishedYear: Option<int>,
    coverImageUrl: string)

  /** The form record (`formData`); a year is `None` for `undefined`. */
  datatype SeriesData = SeriesData(
    name: string, slug: string, description: string, authorId: string,
    publisherId: string, genre: string, ageGroup: string,
    isActive: bool, isOngoing: bool,
    firstPublishedYear: Option<int>, lastPublishedYear: Option<int>,
    coverImageUrl: string)

  const Blank := SeriesData("", "", "", "", "", "", "", true, false, None, None, "")

  /** The initial `formData`: create mode is active, not ongoing, every text
      empty and both years unset; edit mode copies the series, reading a year
      of 0 as missing. */
  function Seed(series: Option<BookSeries>): (d: SeriesData)
    ensures series.None? ==> d == Blank
    ensures series.Some? ==>
      var s := series.value;
      && d.name == s.name && d.slug == s.slug && d.description == s.description
      && d.authorId == s.authorId && d.publisherId == s.publisherId
      && d.genre == s.genre && d.ageGroup == s.ageGroup
      && d.isActive == s.isActive && d.isOngoing == s.isOngoing
      && d.coverImageUrl == s.coverImageUrl
      && d.firstPublishedYear == NonZero(s.firstPublishedYear)
      && d.lastPublishedYear == NonZero(s.lastPublishedYear)
  {
    match series
    case None => Blank
    case Some(s) =>
      SeriesData(OrText(s.name, ""), OrText(s.slug, ""), OrText(s.description, ""),
                 OrText(s.authorId, ""), OrText(s.publisherId, ""), OrText(s.genre, ""),
                 OrText(s.ageGroup, ""), s.isActive, s.isOngoing,
                 NonZero(s.firstPublishedYear), NonZero(s.lastPublishedYear),
                 OrText(s.coverImageUrl, ""))
  }

  /** The keys `handleChange` is called with. */
  datatype SeriesField = Name | Slug | Description | AuthorId | PublisherId | Genre | AgeGroup
                       | IsActive | IsOngoing | FirstPublishedYear | LastPublishedYear | CoverImageUrl

  function Key(f: SeriesField): string {
    match f
    case Name => "name"
    case Slug => "slug"
    case Description => "description"
    case AuthorId => "authorId"
    case PublisherId => "publisherId"
    case Genre => "genre"
    case AgeGroup => "ageGroup"
    case IsActive => "isActive"
    case IsOngoing => "isOngoing"
    case FirstPublishedYear => "firstPublishedYear"
    case LastPublishedYear => "lastPublishedYear"
    case CoverImageUrl => "coverImageUrl"
  }

  predicate Fits(f: SeriesField, v: Value) {
    match f
    case IsActive => v.Flag?
    case IsOngoing => v.Flag?
    case FirstPublishedYear => v.OptNum?
    case LastPublishedYear => v.OptNum?
    case _ => v.Str?
  }

  function Get(d: SeriesData, f: SeriesField): (v: Value)
    ensures Fits(f, v)
  {
    match f
    case Name => Str(d.name)
    case Slug => Str(d.slug)
    case Description => Str(d.description)
    case AuthorId => Str(d.authorId)
    case PublisherId => Str(d.publisherId)
    case Genre => Str(d.genre)
    case AgeGroup => Str(d.ageGroup)
    case IsActive => Flag(d.isActive)
    case IsOngoing => Flag(d.isOngoing)
    case FirstPublishedYear => OptNum(d.firstPublishedYear)
    case LastPublishedYear => OptNum(d.lastPublishedYear)
    case CoverImageUrl => Str(d.coverImageUrl)
  }

  /** `{ ...prev, [field]: value }`: only the named field changes. */
  function Put(d: SeriesData, f: SeriesField, v: Value): (r: SeriesData)
    requires Fits(f, v)
    ensures forall g :: Get(r, g) == if g == f then v else Get(d, g)
  {
    match f
    case Name => d.(name := v.text)
    case Slug => d.(slug := v.text)
    case Description => d.(description := v.text)
    case AuthorId => d.(authorId := v.text)
    case PublisherId => d.(publisherId := v.text)
    case Genre => d.(genre := v.text)
    case AgeGroup => d.(ageGroup := v.text)
    case IsActive => d.(isActive := v.flag)
    case IsOngoing => d.(isOngoing := v.flag)
    case FirstPublishedYear => d.(firstPublishedYear := v.opt)
    case LastPublishedYear => d.(lastPublishedYear := v.opt)
    case CoverImageUrl => d.(coverImageUrl := v.text)
  }

  const NameRequired := "Series name is required"

  /** The dictionary `validateForm` builds. */
  function FormErrors(d: SeriesData): (e: Errors)
    ensures "name" in e <==> IsBlank(d.name)
    ensures e.Keys <= {"name"}
    ensures "name" in e ==> e["name"] == NameRequired
  {
    if IsBlank(d.name) then map["name" := NameRequired] else map[]
  }

  /** What `handleSubmit` passes to `onSubmit`: the record spread, with both
      years overridden (`None` for `undefined`). */
  datatype SeriesPayload = SeriesPayload(fields: SeriesData, firstPublishedYear: Option<int>, lastPublishedYear: Option<int>)

  function SubmitPayload(d: SeriesData): (p: SeriesPayload)
    ensures p.fields == d
    ensures p.firstPublishedYear.None? <==> d.firstPublishedYear.None? || d.firstPublishedYear.value == 0
    ensures p.firstPublishedYear.Some? ==> p.firstPublishedYear == d.firstPublishedYear
    ensures p.lastPublishedYear.None? <==> d.lastPublishedYear.None? || d.lastPublishedYear.value == 0
    ensures p.lastPublishedYear.Some? ==> p.lastPublishedYear == d.lastPublishedYear
  {
    SeriesPayload(d, NonZero(d.firstPublishedYear), NonZero(d.lastPublishedYear))
  }

  /** Nothing relates the two years: the validator does not look at them,
      and any two non-zero years are submitted as they stand, whatever
      their order. */
  lemma YearsNeedNotBeOrdered(d: SeriesData, first: int, last: int)
    requires first != 0 && last != 0
    ensures forall y1, y2 :: FormErrors(d.(firstPublishedYear := y1, lastPublishedYear := y2)) == FormErrors(d)
    ensures var p := SubmitPayload(d.(firstPublishedYear := Some(first), lastPublishedYear := Some(last)));
            p.firstPublishedYear == Some(first) && p.lastPublishedYear == Some(last)
  {
  }

  class SeriesForm {
    var data: SeriesData
    var errors: Errors

    constructor (series: Option<BookSeries>)
      ensures data == Seed(series) && errors == map[]
    {
      data := Seed(series);
      errors := map[];
    }

    method ValidateForm() returns (valid: bool)
      modifies this`errors
      ensures errors == FormErrors(data)
      ensures valid <==> !IsBlank(data.name)
    {
      var newErrors: Errors := map[];
      if IsBlank(data.name) {
        newErrors := newErrors["name" := NameRequired];
      }
      errors := newErrors;
      valid := |newErrors| == 0;
    }

    /** Returns what is handed to `onSubmit`, or `None` when it is not called. */
    method HandleSubmit() returns (submitted: Option<SeriesPayload>)
      modifies this`errors
      ensures errors == FormErrors(data)
      ensures submitted.None? <==> IsBlank(data.name)
      ensures submitted.Some? ==> submitted.value == SubmitPayload(data)
    {
      var valid := ValidateForm();
      if !valid {
        return None;
      }
      return Some(SubmitPayload(data));
    }

    method HandleChange(field: SeriesField, value: Value)
      requires Fits(field, value)
      modifies this`data, this`errors
      ensures data == Put(old(data), field, value)
      ensures errors == ClearError(old(errors), Key(field))
    {
      data := Put(data, field, value);
      if Key(field) in errors && errors[Key(field)] != "" {
        errors := errors[Key(field) := ""];
      }
    }

    /** Writes the slug of the current name through `handleChange('slug', ...)`. */
    method GenerateSlug()
      modifies this`data, this`errors
      ensures data == Put(old(data), Slug, Str(Slugify(old(data).name)))
      ensures errors == ClearError(old(errors), "slug")
      ensures IsSlug(data.slug)
    {
      SlugAlphabet(data.name);
      HandleChange(Slug, Str(Slugify(data.name)));
    }
  }
}
