/** The book-specification editor
    (src/components/products/BookSpecificationForm.tsx): a record of
    bibliographic details with five string lists edited through one generic
    add/remove pair and a three-key validator that does not trim. */
module BookSpecs {
  import opened Common
  import opened Ascii
  import opened StringLists

  /** The choices of the format and language selects. */
  const BookFormats: seq<string> := ["hardcover", "paperback", "ebook", "audiobook"]
  const BookLanguages: seq<string> :=
    ["english", "hindi", "bengali", "tamil", "telugu", "marathi", "gujarati", "kannada", "malayalam", "punjabi"]

  /** The stored fields that no input of this form edits and that are copied
      into `formData` as they are (an absent text is "", an absent list []);
      the publication date and the series number may be missing. */
  datatype BookDetails = BookDetails(
    publicationDate: Option<string>, volume: string, seriesName: string,
    seriesNumber: Option<int>, publisherId: string, authorId: string,
    bookSeriesId: string, tableOfContents: string, summary: string,
    prerequisites: string, targetAudience: string, coverImageUrl: string,
    samplePages: seq<string>)

  /** What a create-mode form holds for them. */
  const NoDetails := BookDetails(None, "", "", None, "", "", "", "", "", "", "", "", [])

  /** A stored specification as the form reads it; an absent text is "". */
  datatype BookSpecification = BookSpecification(
    productId: string, isbn: string, isbn13: string, isbn10: string,
    format: string, language: string, pageCount: Option<int>,
    dimensions: Option<Dimensions>, weight: Option<int>, details: BookDetails,
    edition: string, ageGroup: string, gradeLevel: string, subject: string,
    board: string, syllabusYear: string,
    authors: seq<string>, editors: seq<string>, illustrators: seq<string>,
    publisher: string, keyFeatures: seq<string>, learningObjectives: seq<string>,
    hasDigitalVersion: bool, hasAudioVersion: bool)

  /** The form record (`formData`); `pageCount` and `weight` are `None` for
      `undefined`. */
  datatype SpecData = SpecData(
    productId: string, isbn: string, isbn13: string, isbn10: string,
    format: string, language: string, pageCount: Option<int>,
    dimensions: Dimensions, weight: Option<int>, details: BookDetails,
    edition: string, ageGroup: string, gradeLevel: string, subject: string,
    board: string, syllabusYear: string,
    authors: seq<string>, editors: seq<string>, illustrators: seq<string>,
    publisher: string, keyFeatures: seq<string>, learningObjectives: seq<string>,
    hasDigitalVersion: bool, hasAudioVersion: bool)

  const Blank := SpecData("", "", "", "", "paperback", "english", None, NoDimensions, None, NoDetails,
                          "", "", "", "", "", "",
                          [], [], [], "", [], [], false, false)

  /** The initial `formData`: the stored values in edit mode, with an empty
      format or language replaced by 'paperback' / 'english'; the defaults in
      create mode, where neither version flag is set. */
  function Seed(spec: Option<BookSpecification>): (d: SpecData)
    ensures spec.None? ==> d == Blank
    ensures spec.None? ==> !d.hasDigitalVersion && !d.hasAudioVersion
    ensures spec.Some? ==>
      var s := spec.value;
      && d.productId == s.productId && d.isbn == s.isbn && d.isbn13 == s.isbn13 && d.isbn10 == s.isbn10
      && d.format == (if s.format == "" then "paperback" else s.format)
      && d.language == (if s.language == "" then "english" else s.language)
      && d.pageCount == s.pageCount && d.weight == s.weight && d.details == s.details
      && d.dimensions == (if s.dimensions.Some? then s.dimensions.value else NoDimensions)
      && d.edition == s.edition && d.ageGroup == s.ageGroup
      && d.gradeLevel == s.gradeLevel && d.subject == s.subject && d.board == s.board
      && d.syllabusYear == s.syllabusYear && d.authors == s.authors && d.editors == s.editors
      && d.illustrators == s.illustrators && d.publisher == s.publisher
      && d.keyFeatures == s.keyFeatures && d.learningObjectives == s.learningObjectives
      && d.hasDigitalVersion == s.hasDigitalVersion && d.hasAudioVersion == s.hasAudioVersion
    ensures d.format != "" && d.language != ""
  {
    match spec
    case None => Blank
    case Some(s) =>
      SpecData(OrText(s.productId, ""), OrText(s.isbn, ""), OrText(s.isbn13, ""), OrText(s.isbn10, ""),
               OrText(s.format, "paperback"), OrText(s.language, "english"), s.pageCount,
               OrElse(s.dimensions, NoDimensions), s.weight, s.details,
               OrText(s.edition, ""), OrText(s.ageGroup, ""), OrText(s.gradeLevel, ""), s.subject,
               OrText(s.board, ""), OrText(s.syllabusYear, ""),
               s.authors, s.editors, s.illustrators, OrText(s.publisher, ""),
               s.keyFeatures, s.learningObjectives,
               s.hasDigitalVersion || false, s.hasAudioVersion || false)
  }

  /** The keys `handleChange` is called with. */
  datatype SpecField = ProductId | Isbn | Isbn13 | Isbn10 | Format | Language | PageCount | Weight
                     | Subject | GradeLevel | Board | SyllabusYear | AgeGroup | Edition | Publisher

  function Key(f: SpecField): string {
    match f
    case ProductId => "productId"
    case Isbn => "isbn"
    case Isbn13 => "isbn13"
    case Isbn10 => "isbn10"
    case Format => "format"
    case Language => "language"
    case PageCount => "pageCount"
    case Weight => "weight"
    case Subject => "subject"
    case GradeLevel => "gradeLevel"
    case Board => "board"
    case SyllabusYear => "syllabusYear"
    case AgeGroup => "ageGroup"
    case Edition => "edition"
    case Publisher => "publisher"
  }

  /** The page-count and weight inputs pass a parsed number or `undefined`;
      every other input its text. */
  predicate Fits(f: SpecField, v: Value) {
    if f == PageCount || f == Weight then v.OptNum? else v.Str?
  }

  function Get(d: SpecData, f: SpecField): (v: Value)
    ensures Fits(f, v)
  {
    match f
    case ProductId => Str(d.productId)
    case Isbn => Str(d.isbn)
    case Isbn13 => Str(d.isbn13)
    case Isbn10 => Str(d.isbn10)
    case Format => Str(d.format)
    case Language => Str(d.language)
    case PageCount => OptNum(d.pageCount)
    case Weight => OptNum(d.weight)
    case Subject => Str(d.subject)
    case GradeLevel => Str(d.gradeLevel)
    case Board => Str(d.board)
    case SyllabusYear => Str(d.syllabusYear)
    case AgeGroup => Str(d.ageGroup)
    case Edition => Str(d.edition)
    case Publisher => Str(d.publisher)
  }

  /** The five lists `addItem` / `removeItem` accept. */
  datatype ListField = Authors | Editors | Illustrators | KeyFeatures | LearningObjectives

  function ListOf(d: SpecData, f: ListField): seq<string> {
    match f
    case Authors => d.authors
    case Editors => d.editors
    case Illustrators => d.illustrators
    case KeyFeatures => d.keyFeatures
    case LearningObjectives => d.learningObjectives
  }

  /** `{ ...prev, [field]: value }` for a scalar field: only that field changes. */
  function Put(d: SpecData, f: SpecField, v: Value): (r: SpecData)
    requires Fits(f, v)
    ensures forall g :: Get(r, g) == if g == f then v else Get(d, g)
    ensures forall l :: ListOf(r, l) == ListOf(d, l)
    ensures r.hasDigitalVersion == d.hasDigitalVersion && r.hasAudioVersion == d.hasAudioVersion
    ensures r.dimensions == d.dimensions && r.details == d.details
  {
    match f
    case ProductId => d.(productId := v.text)
    case Isbn => d.(isbn := v.text)
    case Isbn13 => d.(isbn13 := v.text)
    case Isbn10 => d.(isbn10 := v.text)
    case Format => d.(format := v.text)
    case Language => d.(language := v.text)
    case PageCount => d.(pageCount := v.opt)
    case Weight => d.(weight := v.opt)
    case Subject => d.(subject := v.text)
    case GradeLevel => d.(gradeLevel := v.text)
    case Board => d.(board := v.text)
    case SyllabusYear => d.(syllabusYear := v.text)
    case AgeGroup => d.(ageGroup := v.text)
    case Edition => d.(edition := v.text)
    case Publisher => d.(publisher := v.text)
  }

  /** `{ ...prev, [field]: xs }` for a list field: only that list changes. */
  function WithList(d: SpecData, f: ListField, xs: seq<string>): (r: SpecData)
    ensures forall l :: ListOf(r, l) == if l == f then xs else ListOf(d, l)
    ensures forall g :: Get(r, g) == Get(d, g)
    ensures r.hasDigitalVersion == d.hasDigitalVersion && r.hasAudioVersion == d.hasAudioVersion
    ensures r.dimensions == d.dimensions && r.details == d.details
  {
    match f
    case Authors => d.(authors := xs)
    case Editors => d.(editors := xs)
    case Illustrators => d.(illustrators := xs)
    case KeyFeatures => d.(keyFeatures := xs)
    case LearningObjectives => d.(learningObjectives := xs)
  }

  const ProductRequired := "Product is required"
  const FormatRequired := "Format is required"
  const LanguageRequired := "Language is required"

  /** The dictionary `validateForm` builds. The values are tested for being
      empty, not blank: a product id of spaces passes. */
  function FormErrors(d: SpecData): (e: Errors)
    ensures "productId" in e <==> d.productId == ""
    ensures "format" in e <==> d.format == ""
    ensures "language" in e <==> d.language == ""
    ensures e.Keys <= {"productId", "format", "language"}
    ensures "productId" in e ==> e["productId"] == ProductRequired
    ensures "format" in e ==> e["format"] == FormatRequired
    ensures "language" in e ==> e["language"] == LanguageRequired
  {
    var e1 := Check(map[], d.productId == "", "productId", ProductRequired);
    var e2 := Check(e1, d.format == "", "format", FormatRequired);
    Check(e2, d.language == "", "language", LanguageRequired)
  }

  predicate Submittable(d: SpecData) {
    d.productId != "" && d.format != "" && d.language != ""
  }

  lemma ValidIff(d: SpecData)
    ensures FormErrors(d) == map[] <==> Submittable(d)
  {
    var e := FormErrors(d);
    if !Submittable(d) {
      assert "productId" in e || "format" in e || "language" in e;
    }
  }

  /** Format and language start filled in, so on a seeded form only the
      product can be missing. */
  lemma OnlyProductCanFail(spec: Option<BookSpecification>)
    ensures FormErrors(Seed(spec)).Keys <= {"productId"}
    ensures spec.None? ==> FormErrors(Seed(spec)).Keys == {"productId"}
  {
    var e := FormErrors(Seed(spec));
    assert "format" !in e && "language" !in e;
    if spec.None? {
      assert "productId" in e;
    }
  }

  /** A product id made only of spaces is accepted. */
  lemma SpacesPassProductCheck()
    ensures FormErrors(Blank.(productId := " ")) == map[]
  {
    ValidIff(Blank.(productId := " "));
  }

  class SpecificationForm {
    var data: SpecData
    var newAuthor: string
    var errors: Errors

    constructor (spec: Option<BookSpecification>)
      ensures data == Seed(spec) && newAuthor == "" && errors == map[]
    {
      data := Seed(spec);
      newAuthor := "";
      errors := map[];
    }

    /** Each `Check` is one `if (...) newErrors[key] = message` of the source. */
    method ValidateForm() returns (valid: bool)
      modifies this`errors
      ensures errors == FormErrors(data)
      ensures valid <==> Submittable(data)
    {
      var newErrors: Errors := map[];
      newErrors := Check(newErrors, data.productId == "", "productId", ProductRequired);
      newErrors := Check(newErrors, data.format == "", "format", FormatRequired);
      newErrors := Check(newErrors, data.language == "", "language", LanguageRequired);
      errors := newErrors;
      ValidIff(data);
      valid := newErrors == map[];
    }

    /** Returns the record handed to `onSubmit`, or `None` when it is not called. */
    method HandleSubmit() returns (submitted: Option<SpecData>)
      modifies this`errors
      ensures errors == FormErrors(data)
      ensures submitted.None? <==> !Submittable(data)
      ensures submitted.Some? ==> submitted.value == data
    {
      var valid := ValidateForm();
      if !valid {
        return None;
      }
      return Some(data);
    }

    method HandleChange(field: SpecField, value: Value)
      requires Fits(field, value)
      modifies this`data, this`errors
      ensures data == Put(old(data), field, value)
      ensures errors == ClearError(old(errors), Key(field))
    {
      data := Put(data, field, value);
      if Key(field) in errors && errors[Key(field)] != "" {
        errors := errors[Key(field) := ""];
      }
    }

    /** `addItem(field, item)`: the trimmed item joins that one list when it
        is non-blank and not already there. */
    method AddItem(field: ListField, item: string)
      modifies this`data
      ensures data == WithList(old(data), field, AddUnique(ListOf(old(data), field), item))
      ensures Clean(ListOf(old(data), field)) ==> Clean(ListOf(data, field))
    {
      var current := ListOf(data, field);
      if !IsBlank(item) && Trim(item) !in current {
        data := WithList(data, field, current + [Trim(item)]);
      }
      if Clean(current) { AddKeepsClean(current, item); }
    }

    /** `removeItem(field, item)`: every copy of the item leaves that one list. */
    method RemoveItem(field: ListField, item: string)
      modifies this`data
      ensures data == WithList(old(data), field, RemoveAll(ListOf(old(data), field), item))
      ensures Clean(ListOf(old(data), field)) ==> Clean(ListOf(data, field))
    {
      var current := ListOf(data, field);
      data := WithList(data, field, RemoveAll(current, item));
      if Clean(current) { RemoveKeepsClean(current, item); }
    }

    method SetNewAuthor(value: string)
      modifies this`newAuthor
      ensures newAuthor == value
    {
      newAuthor := value;
    }

    /** The author button: `addItem('authors', newAuthor)`, then the draft is
        cleared whether or not the name was taken. */
    method AddAuthorClicked()
      modifies this`data, this`newAuthor
      ensures data == WithList(old(data), Authors, AddUnique(old(data).authors, old(newAuthor)))
      ensures newAuthor == ""
    {
      AddItem(Authors, newAuthor);
      newAuthor := "";
    }
  }
}
