# Book and school-supplies admin: form and list-page logic

This project models the deterministic logic of the admin front-end for a
store that sells books, school sets and uniforms. It models:

- the **entity editors**: author, publisher, book series, school set,
  uniform, book specification, supplier, warehouse and product kind;
- the **list pages** for book specifications, suppliers and inventory.

Each editor is a Dafny `class` that holds the form record (`data`), its
`errors` dictionary and the draft inputs of its list fields. Each handler
of the component is a `method` whose `ensures` gives the new state as a
function of the old one. Pure specification functions carry the
properties that the editors promise:

- `Seed` for the initial record;
- `FormErrors` for the validator;
- `Put` for `{ ...prev, [field]: value }`;
- `AddUnique` and `RemoveAll` for the list rule;
- `Slugify` for slug generation;
- `TotalPrice` for the school-set total;
- `KindErrors` for the product-kind validator.

Lemmas then relate these functions.

The modules and what they hold:

- `Ascii`: ASCII `trim`, `\s`, `\w` and case mapping.
- `Decimal`: decimal rendering of numbers in template strings.
- `Common`: the error dictionary and the `||` / `??` fallbacks.
- `StringLists`: the shared trim / no-blank / no-duplicate list rule.
- `Slugs`: the slug rewrite of the three book editors.
- `CommaLists`: the comma-separated options parser.
- `ListResponses`: normalisation of list responses.
- One module per editor.
- One module per list page.

Money and quantities are integers; see "Left out".

Two behaviours of the code are worth knowing:

- On the suppliers page, `getStatusColor` gives `draft` the same gray class
  as an unknown status, so a gray badge does not tell a draft from a
  mistyped status (`SuppliersPage.StatusColorGrayIff`). The seven
  purchase-order statuses still get seven different classes
  (`SuppliersPage.StatusColorsDistinct`).
- On the warehouse editor, editing the street or city does not clear the
  error shown for it. The error stays until the next validation.

## Model

| member | source | states |
|---|---|---|
| Ascii.LowerAll | src/components/books/AuthorForm.tsx:108 | `toLowerCase` maps every character through the ASCII lower-case map and keeps the length |
| Ascii.Trim | src/components/books/AuthorForm.tsx:45 | `trim()` never lengthens; its result has no whitespace at either end; it is "" exactly when the input is all whitespace |
| Ascii.TrimStart | src/components/books/AuthorForm.tsx:45 | the leading-whitespace strip is a suffix of the input, and every dropped character is whitespace |
| Ascii.TrimEnd | src/components/books/AuthorForm.tsx:45 | the trailing-whitespace strip is a prefix of the input, and every dropped character is whitespace |
| Ascii.TrimSlice | src/components/books/AuthorForm.tsx:45 | the trimmed text is a contiguous slice of the input |
| Ascii.LeadingRun | src/components/books/AuthorForm.tsx:45 | what the leading strip removes is all whitespace |
| Ascii.TrailingRun | src/components/books/AuthorForm.tsx:45 | what the trailing strip removes is all whitespace |
| Ascii.BlankIffTrimEmpty | src/components/books/AuthorForm.tsx:45 | the `!s.trim()` test (IsBlank) holds exactly when `trim` yields "" |
| Ascii.TrimIdempotent | src/components/books/AuthorForm.tsx:45 | trimming twice equals trimming once |
| Ascii.TrimFixesTrimmed | src/components/books/AuthorForm.tsx:45 | text with no whitespace at either end is its own trim |
| Ascii.TrimKeepsChars | src/components/books/AuthorForm.tsx:45 | every character of the trim occurs in the input |
| Ascii.SliceKeepsChars | src/components/books/AuthorForm.tsx:45 | every character of a slice occurs in the text it is cut from |
| Ascii.TrimDropsLeadingSpace | src/components/books/AuthorForm.tsx:45 | whitespace prepended to a text does not change its trim |
| Ascii.Lower | src/components/books/AuthorForm.tsx:108 | upper-case letters become lower-case letters; all other characters are unchanged |
| Ascii.Upper | src/pages/Suppliers.tsx:72 | lower-case letters become upper-case letters; all other characters are unchanged |
| Decimal.Digit | src/components/products/ProductKindForm.tsx:38 | a number below ten renders as the decimal digit whose code is '0' plus the number |
| Decimal.NatToString | src/components/products/ProductKindForm.tsx:38-39 | `${i}` is a non-empty string of digits, one digit long exactly when i < 10 |
| Decimal.NatToStringValue | src/components/products/ProductKindForm.tsx:38-39 | reading the digits of `${i}` back, most significant first, gives i |
| Decimal.NatToStringInjective | src/components/products/ProductKindForm.tsx:38-39 | different indices render differently |
| Decimal.IntToString | src/pages/Suppliers.tsx:167 | `${n}` is non-empty and starts with '-' exactly when n is negative |
| Decimal.IntToStringValue | src/pages/Suppliers.tsx:167 | `${n}` is a numeral (digits after an optional '-') that reads back as n |
| Decimal.IntToStringInjective | src/pages/Suppliers.tsx:167 | different integers render differently |
| Common.ClearError | src/components/books/AuthorForm.tsx:63 | `if (errors[field]) setErrors({...prev, [field]: ''})`: the set of keys is unchanged, the field's entry becomes "", every other entry keeps its message |
| Common.Check | src/components/products/WarehouseForm.tsx:39-50 | one conditional of a validator: the key is present afterwards iff the test failed or it was already present; a failed test writes its message; other entries are kept |
| Common.OrText | src/components/books/AuthorForm.tsx:19-26 | `s \|\| fallback`: a non-empty text is kept and the empty text gives the fallback |
| Common.NonZero | src/components/books/PublisherForm.tsx:61 | `n \|\| undefined`: present exactly when n is present and non-zero, and then equal to n |
| Common.OrElse | src/components/products/WarehouseForm.tsx:31-32 | `b ?? fallback` (and `obj \|\| fallback` for an object): a present value is kept and a missing one gives the fallback |
| Common.ExtrasFrom | src/components/products/SchoolSetForm.tsx:35-45 | sku, barcode, weight and the meta texts are copied, missing dimensions give 0 × 0 × 0 and missing specifications `{}`, so a record without them seeds the create-mode values |
| Common.WithPart | src/components/books/PublisherForm.tsx:72-77 | `{...prev.address, [part]: value}`: the named component takes the value and every other component is unchanged |
| Common.AnyPartSetIff | src/components/books/PublisherForm.tsx:58 | `Object.values(address).some(v => v)` holds iff some component is non-empty |
| Common.DropIndex | src/components/products/SchoolSetForm.tsx:113-118 | `filter((_, i) => i !== index)` removes exactly position `index` and keeps the order of the rest; an out-of-range index changes nothing |
| StringLists.AddUnique | src/components/books/AuthorForm.tsx:73-81 | the add-to-list rule: a blank input leaves the list unchanged; otherwise the trimmed input ends up in the list; when the list grows, it grows by exactly the trimmed input at the end, which was absent before; the earlier entries are unchanged |
| StringLists.RemoveAll | src/components/books/AuthorForm.tsx:83-88 | `filter(a => a !== value)`: an element remains iff it was there and differs from the value; every other element keeps its multiplicity |
| StringLists.RemoveAllAppend | src/components/books/AuthorForm.tsx:83-88 | removal distributes over concatenation, so the relative order of the rest is kept |
| StringLists.RemoveAbsent | src/components/books/AuthorForm.tsx:83-88 | removing an absent value changes nothing |
| StringLists.AddTwice | src/components/books/AuthorForm.tsx:73-81 | adding the same input twice equals adding it once |
| StringLists.AddThenRemove | src/components/books/AuthorForm.tsx:73-88 | removing the trimmed value of an accepted add restores the list |
| StringLists.AddKeepsClean | src/components/books/AuthorForm.tsx:73-81 | adding keeps a list free of duplicates and blanks |
| StringLists.RemoveKeepsClean | src/components/books/AuthorForm.tsx:83-88 | removing keeps a list free of duplicates and blanks |
| StringLists.EditsKeepClean | src/components/books/AuthorForm.tsx:73-105 | any sequence of adds and removes keeps a list free of duplicates and blanks |
| Slugs.DropDisallowed | src/components/books/AuthorForm.tsx:108 | `replace(/[^a-z0-9\s-]/g, '')`: every character of the result is allowed, and a character occurs in the result iff it occurs in the input and is allowed; a one-character input is kept iff allowed |
| Slugs.DropDisallowedAppend | src/components/books/AuthorForm.tsx:108 | the filter distributes over concatenation, so with the one-character case it keeps exactly the allowed characters in their order |
| Slugs.DashRuns | src/components/books/AuthorForm.tsx:108 | `replace(/\s+/g, '-')`: no whitespace remains; text without whitespace is unchanged; leading whitespace becomes a leading '-'; no new characters other than '-' appear |
| Slugs.DashRunsRun | src/components/books/AuthorForm.tsx:108 | a maximal whitespace run between two pieces becomes exactly one '-' and the pieces on either side are rewritten on their own |
| Slugs.SlugAlphabet | src/components/books/AuthorForm.tsx:107-110 | a generated slug uses only a–z, 0–9 and '-' |
| Slugs.SlugFixesSlugs | src/components/books/AuthorForm.tsx:107-110 | a text over that alphabet is its own slug |
| Slugs.DropKeepsKept | src/components/books/AuthorForm.tsx:108 | the character filter leaves an all-allowed text unchanged |
| Slugs.SlugIdempotent | src/components/books/AuthorForm.tsx:107-110 | generating a slug from a slug changes nothing |
| Slugs.Slugify | src/components/books/AuthorForm.tsx:107-110 | `generateSlug` (also BookSeriesForm.tsx:66 and PublisherForm.tsx:113): lower-case, drop disallowed characters, dash whitespace runs; its meaning is stated by SlugAlphabet, DashRunsRun, SlugFixesSlugs, SlugIdempotent and LeadingSpaceGivesDash |
| Slugs.LeadingSpaceGivesDash | src/components/books/PublisherForm.tsx:113-116 | the name is not trimmed, so leading whitespace gives the slug a leading '-' |
| CommaLists.Split | src/components/products/ProductKindForm.tsx:206 | `split(',')` gives at least one piece, no piece contains the separator, and joining the pieces with it restores the text |
| CommaLists.JoinHead | src/components/products/ProductKindForm.tsx:205 | `join(', ')` is the first element followed by the separator and the join of the rest |
| CommaLists.SplitAfter | src/components/products/ProductKindForm.tsx:206 | splitting at a first separator gives the text before it, then the split of the rest |
| CommaLists.SplitNone | src/components/products/ProductKindForm.tsx:206 | a text without a separator splits into itself |
| CommaLists.TrimEach | src/components/products/ProductKindForm.tsx:206 | `map(v => v.trim())` trims every piece and keeps their number |
| CommaLists.DropEmpty | src/components/products/ProductKindForm.tsx:206 | `filter(Boolean)`: no empty entry remains, an entry occurs in the result iff it is a non-empty entry of the input, a list with no empty entry is unchanged, and a one-entry list is kept iff its entry is non-empty |
| CommaLists.DropEmptyAppend | src/components/products/ProductKindForm.tsx:206 | the filter distributes over concatenation, so with the one-entry case it keeps exactly the non-empty entries in their order |
| CommaLists.TrimmedPieceClean | src/components/products/ProductKindForm.tsx:206 | a non-empty trimmed piece is a clean option: no comma, no whitespace at either end |
| CommaLists.ParsedOptionsClean | src/components/products/ProductKindForm.tsx:206 | the parsed options contain no empty, padded or comma-bearing entries |
| CommaLists.TrimClean | src/components/products/ProductKindForm.tsx:206 | a clean option is its own trim, even after the space the join adds in front of it |
| CommaLists.Spaced | src/components/products/ProductKindForm.tsx:205 | puts the space of the ', ' separator in front of each option |
| CommaLists.ConcatRegroup | src/components/products/ProductKindForm.tsx:205 | the text of `prefix + x + ', ' + rest` regroups into `prefix + x`, ',' and `' ' + rest` |
| CommaLists.SplitShown | src/components/products/ProductKindForm.tsx:205-206 | splitting a displayed list at ',' gives its first option and each further option with one leading space |
| CommaLists.TrimShownPieces | src/components/products/ProductKindForm.tsx:205-206 | trimming those pieces gives back the options |
| CommaLists.ParseNothing | src/components/products/ProductKindForm.tsx:206 | an empty input parses to no options |
| CommaLists.ShowThenParse | src/components/products/ProductKindForm.tsx:205-206 | parsing the displayed `join(', ')` of clean options gives back exactly those options |
| CommaLists.ParseIdempotent | src/components/products/ProductKindForm.tsx:205-206 | re-parsing the display of parsed options gives the same options |
| CommaLists.ParseOptions | src/components/products/ProductKindForm.tsx:206 | `split(',').map(trim).filter(Boolean)`; ParsedOptionsClean, ParseNothing, ShowThenParse and ParseIdempotent state what it yields |
| CommaLists.ShowOptions | src/components/products/ProductKindForm.tsx:205 | `(options \|\| []).join(', ')`; ShowThenParse states that parsing it returns clean options unchanged |
| ListResponses.Unwrap | src/pages/Suppliers.tsx:42-47 | an object with a `data` key yields its data, or [] when that is missing; a bare array yields itself; anything else yields []. Inventory.tsx:35-40 uses the same rule |
| ListResponses.OrEmpty | src/pages/Inventory.tsx:41 | `res.data \|\| []` keeps present data and otherwise gives [] |
| ListResponses.ShapeIrrelevant | src/pages/Inventory.tsx:35-40 | a bare array and an envelope around the same array unwrap to the same list |
| ListResponses.NonEmptyWasCarried | src/pages/Suppliers.tsx:42-47 | a non-empty unwrapped list is exactly what the response carried |
| Authors.WithHandle | src/components/books/AuthorForm.tsx:66-71 | `{...socialMedia, [platform]: value}` sets that handle and keeps the other three |
| Authors.Seed | src/components/books/AuthorForm.tsx:18-37 | edit mode copies the author (its missing social media become four empty handles); create mode gives empty texts, active, no handles and empty lists |
| Authors.Put | src/components/books/AuthorForm.tsx:62 | the named field takes the value; every other field, the handles and both lists are unchanged |
| Authors.FormErrors | src/components/books/AuthorForm.tsx:42-49 | 'name' is the only possible key; it is present iff the trimmed name is empty, with 'Author name is required' |
| Authors.SubmitPayload | src/components/books/AuthorForm.tsx:55-58 | the payload carries every field of the record; socialMedia is undefined exactly when all four handles are empty, otherwise the handles |
| Authors.AuthorForm.constructor | src/components/books/AuthorForm.tsx:18-40 | starts from the seed, with empty drafts and no errors |
| Authors.AuthorForm.ValidateForm | src/components/books/AuthorForm.tsx:42-49 | stores the validator's dictionary; returns true iff the trimmed name is non-empty |
| Authors.AuthorForm.HandleSubmit | src/components/books/AuthorForm.tsx:51-59 | validates; calls onSubmit (with the shaped payload) iff the trimmed name is non-empty |
| Authors.AuthorForm.HandleChange | src/components/books/AuthorForm.tsx:61-64 | sets exactly one field and blanks only that field's error entry |
| Authors.AuthorForm.HandleSocialMediaChange | src/components/books/AuthorForm.tsx:66-71 | sets one handle; the rest of the record and the errors are unchanged |
| Authors.AuthorForm.SetNewAward | src/components/books/AuthorForm.tsx:269 | the award input holds the typed text |
| Authors.AuthorForm.SetNewGenre | src/components/books/AuthorForm.tsx:294 | the genre input holds the typed text |
| Authors.AuthorForm.AddAward | src/components/books/AuthorForm.tsx:73-81 | awards follow the add rule; the input clears iff the value was accepted; genres and all else are unchanged; a clean list stays clean |
| Authors.AuthorForm.RemoveAward | src/components/books/AuthorForm.tsx:83-88 | awards lose every occurrence of the value; everything else is unchanged |
| Authors.AuthorForm.AddGenre | src/components/books/AuthorForm.tsx:90-98 | genres follow the add rule; the input clears iff accepted; awards are unchanged |
| Authors.AuthorForm.RemoveGenre | src/components/books/AuthorForm.tsx:100-105 | genres lose every occurrence of the value; awards are unchanged |
| Authors.AuthorForm.GenerateSlug | src/components/books/AuthorForm.tsx:107-110 | the slug field becomes the slug of the name through handleChange, and the result is a valid slug |
| Publishers.Seed | src/components/books/PublisherForm.tsx:18-37 | edit mode copies the publisher; create mode is active, has empty texts, no founding year and empty lists |
| Publishers.Put | src/components/books/PublisherForm.tsx:68 | the named field takes the value; the address and both lists are unchanged |
| Publishers.FormErrors | src/components/books/PublisherForm.tsx:43-50 | 'name' is the only possible key; it is present iff the trimmed name is empty |
| Publishers.SubmitPayload | src/components/books/PublisherForm.tsx:52-65 | address undefined iff every component is empty; specialties and imprints undefined iff empty; foundedYear undefined iff missing or 0; every field otherwise passes through |
| Publishers.PublisherForm.constructor | src/components/books/PublisherForm.tsx:18-41 | starts from the seed, with empty drafts and no errors |
| Publishers.PublisherForm.ValidateForm | src/components/books/PublisherForm.tsx:43-50 | stores the dictionary; returns true iff the trimmed name is non-empty |
| Publishers.PublisherForm.HandleSubmit | src/components/books/PublisherForm.tsx:52-65 | calls onSubmit with the normalised payload iff the trimmed name is non-empty |
| Publishers.PublisherForm.HandleChange | src/components/books/PublisherForm.tsx:67-70 | sets one field and blanks only its error |
| Publishers.PublisherForm.HandleAddressChange | src/components/books/PublisherForm.tsx:72-77 | replaces exactly one address component |
| Publishers.PublisherForm.SetNewSpecialty | src/components/books/PublisherForm.tsx:287 | the specialty input holds the typed text |
| Publishers.PublisherForm.SetNewImprint | src/components/books/PublisherForm.tsx:312 | the imprint input holds the typed text |
| Publishers.PublisherForm.AddSpecialty | src/components/books/PublisherForm.tsx:79-87 | specialties follow the add rule; the input clears iff accepted; a clean list stays clean |
| Publishers.PublisherForm.RemoveSpecialty | src/components/books/PublisherForm.tsx:89-94 | filters the value out of specialties only |
| Publishers.PublisherForm.AddImprint | src/components/books/PublisherForm.tsx:96-104 | imprints follow the add rule; the input clears iff accepted |
| Publishers.PublisherForm.RemoveImprint | src/components/books/PublisherForm.tsx:106-111 | filters the value out of imprints only |
| Publishers.PublisherForm.GenerateSlug | src/components/books/PublisherForm.tsx:113-116 | the slug field becomes the untrimmed name's slug, which is a valid slug |
| Series.Seed | src/components/books/BookSeriesForm.tsx:22-35 | edit mode copies the series; create mode is active, not ongoing, with empty texts and no years |
| Series.Put | src/components/books/BookSeriesForm.tsx:62 | the named field takes the value and no other field changes |
| Series.FormErrors | src/components/books/BookSeriesForm.tsx:39-46 | 'name' is the only possible key; it is present iff the trimmed name is empty |
| Series.SubmitPayload | src/components/books/BookSeriesForm.tsx:52-58 | each year is undefined iff missing or 0, and otherwise kept; the other fields pass through |
| Series.YearsNeedNotBeOrdered | src/components/books/BookSeriesForm.tsx:39-58 | the validator ignores both years, and any two non-zero years are submitted unchanged whatever their order |
| Series.SeriesForm.constructor | src/components/books/BookSeriesForm.tsx:22-37 | starts from the seed with no errors |
| Series.SeriesForm.ValidateForm | src/components/books/BookSeriesForm.tsx:39-46 | stores the dictionary; returns true iff the trimmed name is non-empty |
| Series.SeriesForm.HandleSubmit | src/components/books/BookSeriesForm.tsx:48-59 | calls onSubmit with the year-normalised payload iff valid |
| Series.SeriesForm.HandleChange | src/components/books/BookSeriesForm.tsx:61-64 | sets one field and blanks only its error |
| Series.SeriesForm.GenerateSlug | src/components/books/BookSeriesForm.tsx:66-69 | the slug field becomes the name's slug, which is a valid slug |
| SchoolSets.Seed | src/components/products/SchoolSetForm.tsx:25-48 | edit mode copies the set, a missing flag taking its default and the catalogue extras (sku, barcode, weight, dimensions, specifications, meta texts) seeded by ExtrasFrom; create mode gives the defaults |
| SchoolSets.Put | src/components/products/SchoolSetForm.tsx:86 | the named field takes the value; the items, tags, images, keywords and catalogue extras are unchanged |
| SchoolSets.FormErrors | src/components/products/SchoolSetForm.tsx:61-77 | 'name' iff the trimmed name is empty, 'gradeLevel' iff the trimmed grade is empty, 'price' iff price ≤ 0, 'items' iff there are no items; no other key; each with its message |
| SchoolSets.ValidIff | src/components/products/SchoolSetForm.tsx:61-77 | the dictionary is empty iff the set is submittable |
| SchoolSets.TotalPrice | src/components/products/SchoolSetForm.tsx:154-156 | the total of no items is 0, and with non-negative quantities and prices it is non-negative |
| SchoolSets.LineTotal | src/components/products/SchoolSetForm.tsx:155 | one line of the total, quantity × unit price; TotalAppend, TotalConcat and TotalDropIndex state how the lines make up the total |
| SchoolSets.TotalAppend | src/components/products/SchoolSetForm.tsx:154-156 | appending an item adds exactly its quantity × unit price |
| SchoolSets.TotalConcat | src/components/products/SchoolSetForm.tsx:154-156 | the total of two lists end to end is the sum of their totals |
| SchoolSets.TotalDropIndex | src/components/products/SchoolSetForm.tsx:113-118 | removing item i subtracts exactly its line total |
| SchoolSets.ItemId | src/components/products/SchoolSetForm.tsx:93 | the draft's product id, or `temp-<now>` when it is empty |
| SchoolSets.WithDraft | src/components/products/SchoolSetForm.tsx:90-111 | an accepted draft (non-blank trimmed name, quantity > 0, price ≥ 0) appends one item with the trimmed name and the draft's quantity and price; earlier items are unchanged and the total grows by that line; a refused draft changes nothing |
| SchoolSets.AddDoesNotDeduplicate | src/components/products/SchoolSetForm.tsx:90-111 | adding an item already present leaves it in the list twice |
| SchoolSets.WellFormedNameTrimmed | src/components/products/SchoolSetForm.tsx:94 | a stored item name is its own trim |
| SchoolSets.WithDraftKeepsWellFormed | src/components/products/SchoolSetForm.tsx:90-111 | adding keeps every item with a non-blank trimmed name, quantity > 0 and price ≥ 0 |
| SchoolSets.DropKeepsWellFormed | src/components/products/SchoolSetForm.tsx:113-118 | removing keeps every item well formed |
| SchoolSets.WellFormedTotalNonNegative | src/components/products/SchoolSetForm.tsx:154-156 | the total of well-formed items is non-negative |
| SchoolSets.QuantityInput | src/components/products/SchoolSetForm.tsx:276 | `parseInt(v) \|\| 1` keeps a non-zero parse, and an unparsable or zero quantity gives exactly 1 |
| SchoolSets.UnitPriceInput | src/components/products/SchoolSetForm.tsx:286 | `parseFloat(v) \|\| 0` keeps a parse and gives 0 otherwise |
| SchoolSets.SchoolSetForm.constructor | src/components/products/SchoolSetForm.tsx:25-59 | starts from the seed with the empty draft item, empty inputs and no errors |
| SchoolSets.SchoolSetForm.ValidateForm | src/components/products/SchoolSetForm.tsx:61-77 | stores the dictionary; returns true iff the set is submittable |
| SchoolSets.SchoolSetForm.HandleSubmit | src/components/products/SchoolSetForm.tsx:79-83 | calls onSubmit with the whole record, catalogue extras included, iff valid |
| SchoolSets.SchoolSetForm.HandleChange | src/components/products/SchoolSetForm.tsx:85-88 | sets one field and blanks only its error |
| SchoolSets.SchoolSetForm.SetDraftName | src/components/products/SchoolSetForm.tsx:265 | sets the draft's name only |
| SchoolSets.SchoolSetForm.SetDraftQuantity | src/components/products/SchoolSetForm.tsx:276 | sets the draft's quantity to the parse, or 1 |
| SchoolSets.SchoolSetForm.SetDraftUnitPrice | src/components/products/SchoolSetForm.tsx:286 | sets the draft's price to the parse, or 0 |
| SchoolSets.SchoolSetForm.AddItem | src/components/products/SchoolSetForm.tsx:90-111 | items follow WithDraft; the draft resets to the empty item iff accepted; well-formed items stay well formed |
| SchoolSets.SchoolSetForm.RemoveItem | src/components/products/SchoolSetForm.tsx:113-118 | removes exactly position i; the total drops by that line; well-formed items stay well formed |
| SchoolSets.SchoolSetForm.SetNewTag | src/components/products/SchoolSetForm.tsx:56 | the tag draft holds the given text; no input of the form is bound to it |
| SchoolSets.SchoolSetForm.SetNewImageUrl | src/components/products/SchoolSetForm.tsx:362 | the image-URL input holds the typed text |
| SchoolSets.SchoolSetForm.AddTag | src/components/products/SchoolSetForm.tsx:120-128 | tags follow the add rule; the draft clears iff accepted; no button of the form calls addTag |
| SchoolSets.SchoolSetForm.RemoveTag | src/components/products/SchoolSetForm.tsx:130-135 | filters the value out of tags only |
| SchoolSets.SchoolSetForm.AddImage | src/components/products/SchoolSetForm.tsx:137-145 | images follow the add rule; the input clears iff accepted |
| SchoolSets.SchoolSetForm.RemoveImage | src/components/products/SchoolSetForm.tsx:147-152 | filters the URL out of images only |
| Uniforms.Seed | src/components/products/UniformForm.tsx:22-49 | edit mode copies the uniform and seeds the catalogue extras by ExtrasFrom; create mode has type 'school', gender 'unisex', active, not featured, price 0; type and gender are never empty |
| Uniforms.Put | src/components/products/UniformForm.tsx:84 | the named field takes the value; all five lists, the images and the catalogue extras are unchanged |
| Uniforms.WithList | src/components/products/UniformForm.tsx:88-102 | replaces exactly the named list among sizes, colors, materials, tags and seoKeywords; images and catalogue extras are unchanged |
| Uniforms.FormErrors | src/components/products/UniformForm.tsx:59-75 | 'name' and 'schoolName' iff blank after trimming, 'type' iff the type is empty, 'price' iff price ≤ 0; no other key |
| Uniforms.ValidIff | src/components/products/UniformForm.tsx:59-75 | the dictionary is empty iff the uniform is submittable |
| Uniforms.FreshFormErrors | src/components/products/UniformForm.tsx:22-75 | a fresh form fails on exactly name, schoolName and price |
| Uniforms.TypeFromSelectNeverMissing | src/components/products/UniformForm.tsx:59-75 | a type chosen from UNIFORM_TYPES never raises the 'type' error |
| Uniforms.UniformForm.constructor | src/components/products/UniformForm.tsx:22-57 | starts from the seed with empty inputs and no errors |
| Uniforms.UniformForm.ValidateForm | src/components/products/UniformForm.tsx:59-75 | stores the dictionary; returns true iff submittable |
| Uniforms.UniformForm.HandleSubmit | src/components/products/UniformForm.tsx:77-81 | calls onSubmit with the whole record, catalogue extras included, iff valid |
| Uniforms.UniformForm.HandleChange | src/components/products/UniformForm.tsx:83-86 | sets one field and blanks only its error |
| Uniforms.UniformForm.AddItem | src/components/products/UniformForm.tsx:88-95 | only the named list changes, by the add rule; a clean list stays clean |
| Uniforms.UniformForm.RemoveItem | src/components/products/UniformForm.tsx:97-102 | only the named list changes, losing every occurrence of the value |
| Uniforms.UniformForm.SetNewSize | src/components/products/UniformForm.tsx:223 | the size input holds the typed text |
| Uniforms.UniformForm.SetNewColor | src/components/products/UniformForm.tsx:252 | the colour input holds the typed text |
| Uniforms.UniformForm.SetNewImageUrl | src/components/products/UniformForm.tsx:308 | the image-URL input holds the typed text |
| Uniforms.UniformForm.AddSizeClicked | src/components/products/UniformForm.tsx:229 | adds the size by the add rule and always clears the input |
| Uniforms.UniformForm.AddColorClicked | src/components/products/UniformForm.tsx:257 | adds the colour by the add rule and always clears the input |
| Uniforms.UniformForm.AddImage | src/components/products/UniformForm.tsx:104-112 | images follow the add rule; the input clears iff accepted |
| Uniforms.UniformForm.RemoveImage | src/components/products/UniformForm.tsx:114-119 | filters the URL out of images only |
| BookSpecs.Seed | src/components/products/BookSpecificationForm.tsx:24-62 | edit mode copies the specification (weight, publication date and series number as they are, missing dimensions as 0 × 0 × 0, the other stored details unchanged); create mode has format 'paperback', language 'english', no weight, zero dimensions, empty details and no digital or audio version |
| BookSpecs.Put | src/components/products/BookSpecificationForm.tsx:92 | the named field (weight included) takes the value; all five lists, both flags, the dimensions and the stored details are unchanged |
| BookSpecs.WithList | src/components/products/BookSpecificationForm.tsx:96-110 | replaces exactly the named list among authors, editors, illustrators, keyFeatures and learningObjectives; flags, dimensions and stored details are unchanged |
| BookSpecs.FormErrors | src/components/products/BookSpecificationForm.tsx:70-83 | 'productId', 'format' and 'language' iff the value is empty, with no trimming; no other key |
| BookSpecs.ValidIff | src/components/products/BookSpecificationForm.tsx:70-83 | the dictionary is empty iff submittable |
| BookSpecs.OnlyProductCanFail | src/components/products/BookSpecificationForm.tsx:24-83 | on a seeded form only productId can fail, and on a fresh one it does |
| BookSpecs.SpacesPassProductCheck | src/components/products/BookSpecificationForm.tsx:72 | a product id of one space passes, since it is not trimmed |
| BookSpecs.SpecificationForm.constructor | src/components/products/BookSpecificationForm.tsx:24-68 | starts from the seed with an empty input and no errors |
| BookSpecs.SpecificationForm.ValidateForm | src/components/products/BookSpecificationForm.tsx:70-83 | stores the dictionary; returns true iff submittable |
| BookSpecs.SpecificationForm.HandleSubmit | src/components/products/BookSpecificationForm.tsx:85-89 | calls onSubmit with the whole record, stored details included, iff valid |
| BookSpecs.SpecificationForm.HandleChange | src/components/products/BookSpecificationForm.tsx:91-94 | sets one field (the weight input included) and blanks only its error |
| BookSpecs.SpecificationForm.AddItem | src/components/products/BookSpecificationForm.tsx:96-103 | only the named list changes, by the add rule |
| BookSpecs.SpecificationForm.RemoveItem | src/components/products/BookSpecificationForm.tsx:105-110 | only the named list changes, losing the value |
| BookSpecs.SpecificationForm.SetNewAuthor | src/components/products/BookSpecificationForm.tsx:301 | the author input holds the typed text |
| BookSpecs.SpecificationForm.AddAuthorClicked | src/components/products/BookSpecificationForm.tsx:306 | adds the author by the add rule and always clears the input |
| Suppliers.Seed | src/components/products/SupplierForm.tsx:18-42 | edit mode copies the supplier; create mode has country 'India', currency 'INR', is active, and has zero credit limit, rating, lead time and minimum order |
| Suppliers.Put | src/components/products/SupplierForm.tsx:67 | the named field takes the value; the address and rating are unchanged |
| Suppliers.PartConcat | src/components/products/SupplierForm.tsx:53 | two parts without whitespace or '@' joined by '.' contain neither |
| Suppliers.ShapeGivesPattern | src/components/products/SupplierForm.tsx:53 | an address of the modelled shape matches `^[^\s@]+@[^\s@]+\.[^\s@]+$` |
| Suppliers.SplitAround | src/components/products/SupplierForm.tsx:53 | a text is the part before position i, the character at i, and the rest |
| Suppliers.Address3Nested | src/components/products/SupplierForm.tsx:53 | `a@b.c` groups as `a` + '@' + `b.c` |
| Suppliers.PatternGivesShape | src/components/products/SupplierForm.tsx:53 | every match of the pattern has the modelled shape |
| Suppliers.EmailShapeIffPattern | src/components/products/SupplierForm.tsx:53 | the shape check holds iff the regular expression matches |
| Suppliers.EmailShapeOneAt | src/components/products/SupplierForm.tsx:53 | an accepted address has exactly one '@' and no whitespace |
| Suppliers.AcceptsPlainAddress | src/components/products/SupplierForm.tsx:53 | 'a@b.c' is accepted |
| Suppliers.RefusesMissingDot | src/components/products/SupplierForm.tsx:53 | 'a@b' is refused |
| Suppliers.RefusesEmptyLocal | src/components/products/SupplierForm.tsx:53 | '@b.c' is refused |
| Suppliers.RefusesSpace | src/components/products/SupplierForm.tsx:53 | 'a b@c.d' is refused |
| Suppliers.FormErrors | src/components/products/SupplierForm.tsx:45-58 | 'name' and 'code' iff blank after trimming; 'email' iff the e-mail is non-empty and fails the pattern; no other key |
| Suppliers.ValidIff | src/components/products/SupplierForm.tsx:45-58 | the dictionary is empty iff submittable |
| Suppliers.SupplierForm.constructor | src/components/products/SupplierForm.tsx:18-43 | starts from the seed with no errors |
| Suppliers.SupplierForm.ValidateForm | src/components/products/SupplierForm.tsx:45-58 | stores the dictionary; returns true iff submittable |
| Suppliers.SupplierForm.HandleSubmit | src/components/products/SupplierForm.tsx:60-64 | calls onSubmit with the record iff valid |
| Suppliers.SupplierForm.HandleChange | src/components/products/SupplierForm.tsx:66-69 | sets one field and blanks only its error |
| Suppliers.SupplierForm.HandleAddressChange | src/components/products/SupplierForm.tsx:71-76 | replaces exactly one address component |
| Warehouses.Seed | src/components/products/WarehouseForm.tsx:18-33 | edit mode copies the warehouse; create mode has country 'India', capacity 0, is not primary, and is active |
| Warehouses.Put | src/components/products/WarehouseForm.tsx:62 | the named field takes the value; the address and contact are unchanged |
| Warehouses.WithContact | src/components/products/WarehouseForm.tsx:73-78 | sets one contact key and keeps every other entry |
| Warehouses.FormErrors | src/components/products/WarehouseForm.tsx:37-53 | 'name', 'code', 'street' and 'city' each iff the trimmed value is empty; no other key |
| Warehouses.ValidIff | src/components/products/WarehouseForm.tsx:37-53 | the dictionary is empty iff submittable |
| Warehouses.StreetErrorGoesStale | src/components/products/WarehouseForm.tsx:66-71 | after a non-blank street is typed the validator would drop 'street', but the handler leaves the shown error in place |
| Warehouses.CityErrorGoesStale | src/components/products/WarehouseForm.tsx:66-71 | the same for 'city' |
| Warehouses.WarehouseForm.constructor | src/components/products/WarehouseForm.tsx:18-35 | starts from the seed with no errors |
| Warehouses.WarehouseForm.ValidateForm | src/components/products/WarehouseForm.tsx:37-53 | stores the dictionary; returns true iff submittable |
| Warehouses.WarehouseForm.HandleSubmit | src/components/products/WarehouseForm.tsx:55-59 | calls onSubmit with the record iff valid |
| Warehouses.WarehouseForm.HandleChange | src/components/products/WarehouseForm.tsx:61-64 | sets one field and blanks only its error |
| Warehouses.WarehouseForm.HandleAddressChange | src/components/products/WarehouseForm.tsx:66-71 | replaces one address component; the errors are unchanged |
| Warehouses.WarehouseForm.HandleContactChange | src/components/products/WarehouseForm.tsx:73-78 | replaces one contact entry; the address is unchanged |
| ProductKinds.Seed | src/components/products/ProductKindForm.tsx:22-28 | edit mode copies the kind; create mode is active and has exactly one copy of emptyField |
| ProductKinds.Merge | src/components/products/ProductKindForm.tsx:54 | `{...f, ...patch}`: the patched attribute holds, and every other attribute is as before |
| ProductKinds.MergeHeld | src/components/products/ProductKindForm.tsx:54 | a patch that already holds changes nothing |
| ProductKinds.MergeIdempotent | src/components/products/ProductKindForm.tsx:54 | applying a patch twice equals applying it once |
| ProductKinds.MergeLastWins | src/components/products/ProductKindForm.tsx:54 | of two patches to the same attribute, the later wins |
| ProductKinds.MergeCommutes | src/components/products/ProductKindForm.tsx:54 | patches to different attributes commute |
| ProductKinds.UpdateAt | src/components/products/ProductKindForm.tsx:51-56 | keeps the length, merges the patch at `index`, and leaves every other position unchanged |
| ProductKinds.UpdateOutOfRange | src/components/products/ProductKindForm.tsx:51-56 | an out-of-range index changes nothing |
| ProductKinds.UpdateThenRemove | src/components/products/ProductKindForm.tsx:51-64 | removing a field makes an earlier patch to it irrelevant |
| ProductKinds.InfixDetermined | src/components/products/ProductKindForm.tsx:38-39 | two keys with the same prefix and suffix are equal only if their middles are equal |
| ProductKinds.NameKeyInjective | src/components/products/ProductKindForm.tsx:38 | `field-i-name` keys of different indices differ |
| ProductKinds.LabelKeyInjective | src/components/products/ProductKindForm.tsx:39 | `field-i-label` keys of different indices differ |
| ProductKinds.NameNotLabel | src/components/products/ProductKindForm.tsx:38-39 | no name key equals a label key |
| ProductKinds.FieldKeysNotHeader | src/components/products/ProductKindForm.tsx:34-39 | per-field keys never collide with 'key', 'name' or 'fields' |
| ProductKinds.HeaderErrors | src/components/products/ProductKindForm.tsx:34-36 | 'key' and 'name' iff blank after trimming, 'fields' iff the list is empty, each with its message |
| ProductKinds.MissingOf | src/components/products/ProductKindForm.tsx:38-39 | a field misses its name (label) iff the trimmed name (label) is empty |
| ProductKinds.MissingAll | src/components/products/ProductKindForm.tsx:37-40 | the per-field flags, index by index |
| ProductKinds.PairKeeps | src/components/products/ProductKindForm.tsx:37-40 | one iteration leaves every key other than its own two unchanged |
| ProductKinds.PairName | src/components/products/ProductKindForm.tsx:38 | one iteration sets `field-i-name` iff the name is blank |
| ProductKinds.PairLabel | src/components/products/ProductKindForm.tsx:39 | one iteration sets `field-i-label` iff the label is blank |
| ProductKinds.PassMatches | src/components/products/ProductKindForm.tsx:37-40 | the two conditional writes of one iteration equal one step of the specification |
| ProductKinds.LoopKeepsHeader | src/components/products/ProductKindForm.tsx:37-40 | the forEach never changes the 'key', 'name' or 'fields' entries |
| ProductKinds.LoopNotYet | src/components/products/ProductKindForm.tsx:37-40 | after n iterations no key for an index ≥ n has been written |
| ProductKinds.LoopNameEntry | src/components/products/ProductKindForm.tsx:38 | after n iterations `field-i-name` (i < n) is present iff field i's name is blank |
| ProductKinds.LoopLabelEntry | src/components/products/ProductKindForm.tsx:39 | after n iterations `field-i-label` (i < n) is present iff field i's label is blank |
| ProductKinds.LoopOnlyFieldKeys | src/components/products/ProductKindForm.tsx:37-40 | the forEach writes only per-field keys of visited indices |
| ProductKinds.LoopCompleteAddsNothing | src/components/products/ProductKindForm.tsx:37-40 | complete fields add no entry |
| ProductKinds.HeaderEntries | src/components/products/ProductKindForm.tsx:32-43 | in the full dictionary, 'key', 'name' and 'fields' are present exactly for the blank key, the blank name and the empty list |
| ProductKinds.FieldEntries | src/components/products/ProductKindForm.tsx:32-43 | in the full dictionary, field i's two keys are present exactly for its blank name and label, with their messages |
| ProductKinds.OnlyKnownKeys | src/components/products/ProductKindForm.tsx:32-43 | every key is a header key or a per-field key of an existing index |
| ProductKinds.ValidIff | src/components/products/ProductKindForm.tsx:32-43 | the dictionary is empty iff key and name are non-blank, the list is non-empty and every field has a non-blank name and label |
| ProductKinds.SubmittableNoErrors | src/components/products/ProductKindForm.tsx:32-43 | a submittable form produces no errors |
| ProductKinds.UnsubmittableReported | src/components/products/ProductKindForm.tsx:32-43 | an unsubmittable form produces at least one error |
| ProductKinds.FreshFormInvalid | src/components/products/ProductKindForm.tsx:22-43 | a fresh form reports exactly 'key', 'name', `field-0-name` and `field-0-label`, and is invalid |
| ProductKinds.NamingClearsNameError | src/components/products/ProductKindForm.tsx:151 | giving field i a non-blank name removes its `field-i-name` error |
| ProductKinds.PatchKeepsOtherEntries | src/components/products/ProductKindForm.tsx:51-56 | patching field i leaves the errors of every other field as they were |
| ProductKinds.AddedFieldReported | src/components/products/ProductKindForm.tsx:58-60 | the appended empty field is reported missing its name and label |
| ProductKinds.GuardedRemoveKeepsOne | src/components/products/ProductKindForm.tsx:138 | with the `length > 1` guard, removing leaves at least one field, so 'fields' is never reported |
| ProductKinds.OptionsEchoStable | src/components/products/ProductKindForm.tsx:205-206 | re-parsing the displayed options of a field with clean options leaves the field unchanged |
| ProductKinds.CheckFields | src/components/products/ProductKindForm.tsx:37-40 | the forEach loop computes the specification's per-field dictionary |
| ProductKinds.CollectErrors | src/components/products/ProductKindForm.tsx:32-43 | validate's dictionary equals the specification, and it is empty iff the form is submittable |
| ProductKinds.KindErrors | src/components/products/ProductKindForm.tsx:32-43 | the dictionary `validate` builds; HeaderEntries, FieldEntries, OnlyKnownKeys and ValidIff state its keys and when it is empty, and CheckFields and CollectErrors prove the loop builds it |
| ProductKinds.KindForm.constructor | src/components/products/ProductKindForm.tsx:22-30 | starts from the seed with no errors |
| ProductKinds.KindForm.Validate | src/components/products/ProductKindForm.tsx:32-43 | stores the dictionary; returns true iff submittable |
| ProductKinds.KindForm.HandleSubmit | src/components/products/ProductKindForm.tsx:45-49 | calls onSubmit with the form iff valid |
| ProductKinds.KindForm.SetKey | src/components/products/ProductKindForm.tsx:83 | sets the key only |
| ProductKinds.KindForm.SetName | src/components/products/ProductKindForm.tsx:94 | sets the name only |
| ProductKinds.KindForm.SetDescription | src/components/products/ProductKindForm.tsx:106 | sets the description only |
| ProductKinds.KindForm.SetActive | src/components/products/ProductKindForm.tsx:117 | sets the active flag only |
| ProductKinds.KindForm.UpdateField | src/components/products/ProductKindForm.tsx:51-56 | merges the patch at `index` and keeps the length |
| ProductKinds.KindForm.AddField | src/components/products/ProductKindForm.tsx:58-60 | appends one emptyField; the form is then not submittable |
| ProductKinds.KindForm.RemoveField | src/components/products/ProductKindForm.tsx:62-64 | removes exactly position `index`; an in-range index shortens the list by one |
| ProductKinds.KindForm.SetFieldOptions | src/components/products/ProductKindForm.tsx:206 | patches the field's options with the parsed text, which are clean |
| BookSpecificationsPage.FirstNonEmpty | src/pages/BookSpecifications.tsx:163 | `a \|\| b \|\| … \|\| fallback` is one of the texts or the fallback, and is non-empty when the fallback is |
| BookSpecificationsPage.FirstNonEmptyIsFirst | src/pages/BookSpecifications.tsx:163 | it is the first non-empty text |
| BookSpecificationsPage.AllEmptyFallback | src/pages/BookSpecifications.tsx:163 | when every text is empty, it is the fallback |
| BookSpecificationsPage.IsbnCell | src/pages/BookSpecifications.tsx:163 | the ISBN cell is never empty |
| BookSpecificationsPage.IsbnCellFirstNonEmpty | src/pages/BookSpecifications.tsx:163 | the ISBN cell shows the first non-empty of isbn, isbn10 and isbn13, or 'N/A' |
| BookSpecificationsPage.SubjectCell | src/pages/BookSpecifications.tsx:172 | the subject when non-empty, 'N/A' otherwise |
| BookSpecificationsPage.GradeCell | src/pages/BookSpecifications.tsx:175 | the grade level when non-empty, 'N/A' otherwise |
| BookSpecificationsPage.TotalPagesOr | src/pages/BookSpecifications.tsx:39 | `totalPages \|\| 1`: a missing or zero count becomes 1, and any other count is kept |
| BookSpecificationsPage.Previous | src/pages/BookSpecifications.tsx:202 | `max(1, page - 1)`: never below 1, one page back when possible |
| BookSpecificationsPage.Next | src/pages/BookSpecifications.tsx:209 | `min(totalPages, page + 1)`: never above totalPages, one page on when possible |
| BookSpecificationsPage.DisabledPreviousStays | src/pages/BookSpecifications.tsx:203 | on page 1, where Previous is disabled, it would not move anyway |
| BookSpecificationsPage.DisabledNextStays | src/pages/BookSpecifications.tsx:210 | on the last page, where Next is disabled, it would not move anyway |
| BookSpecificationsPage.NextUndoesPrevious | src/pages/BookSpecifications.tsx:202-209 | away from page 1, Next undoes Previous |
| BookSpecificationsPage.PreviousUndoesNext | src/pages/BookSpecifications.tsx:202-209 | away from the last page, Previous undoes Next |
| BookSpecificationsPage.SinglePageInert | src/pages/BookSpecifications.tsx:198-210 | with one page the pager is hidden and both buttons are inert |
| BookSpecificationsPage.NextAfterShrink | src/pages/BookSpecifications.tsx:209 | when the current page lies beyond a smaller page count, Next moves backwards, to the last page |
| BookSpecificationsPage.RunStaysInRange | src/pages/BookSpecifications.tsx:202-210 | from a page in [1, totalPages], any sequence of clicks stays in that range |
| BookSpecificationsPage.NextClicks | src/pages/BookSpecifications.tsx:209 | n clicks on Next move n pages forward, stopping at the last |
| BookSpecificationsPage.PreviousClicks | src/pages/BookSpecifications.tsx:202 | n clicks on Previous move n pages back, stopping at 1 |
| BookSpecificationsPage.SpecificationsList.constructor | src/pages/BookSpecifications.tsx:15-16 | no rows, page 1 of 1 |
| BookSpecificationsPage.SpecificationsList.ClickPrevious | src/pages/BookSpecifications.tsx:202-203 | the page becomes Previous of the old page, and stays in range |
| BookSpecificationsPage.SpecificationsList.ClickNext | src/pages/BookSpecifications.tsx:209-210 | the page becomes Next of the old page, and stays in range |
| BookSpecificationsPage.SpecificationsList.Load | src/pages/BookSpecifications.tsx:38-39 | rows become the response's rows, or none; the page count follows TotalPagesOr |
| SuppliersPage.StatusColorGrayIff | src/pages/Suppliers.tsx:58-69 | a status gets the gray class iff it is 'draft' or not one of the seven order statuses |
| SuppliersPage.StatusColor | src/pages/Suppliers.tsx:58-69 | `getStatusColor`; StatusColorGrayIff and StatusColorsDistinct state which statuses share a class |
| SuppliersPage.StatusColorsDistinct | src/pages/Suppliers.tsx:58-69 | two different order statuses always get different classes |
| SuppliersPage.IndexOf | src/pages/Suppliers.tsx:72 | the position of the first occurrence, or the length when there is none |
| SuppliersPage.ReplaceFirst | src/pages/Suppliers.tsx:72 | `replace('_', ' ')` keeps the length, changes only the first occurrence, and leaves a text without one unchanged |
| SuppliersPage.CapitalizeWords | src/pages/Suppliers.tsx:72 | `replace(/\b\w/g, toUpperCase)` keeps the length and upper-cases exactly the word-initial characters |
| SuppliersPage.UpperKeepsClass | src/pages/Suppliers.tsx:72 | upper-casing keeps a character a word character or not, and is idempotent |
| SuppliersPage.CapitalizeIdempotent | src/pages/Suppliers.tsx:72 | capitalising twice equals capitalising once |
| SuppliersPage.StatusText | src/pages/Suppliers.tsx:71-73 | the label has the status's length |
| SuppliersPage.NoUnderscoreOnlyCapitalized | src/pages/Suppliers.tsx:71-73 | a status without '_' is only capitalised |
| SuppliersPage.AllLowerLetters | src/pages/Suppliers.tsx:71-73 | an all-lower-case word has only letters a–z |
| SuppliersPage.CapitalizeLowerWord | src/pages/Suppliers.tsx:72 | a lower-case word gets only its first letter upper-cased |
| SuppliersPage.CapAtShifted | src/pages/Suppliers.tsx:72 | a character is capitalised the same in two texts when it and its word-start status agree |
| SuppliersPage.CapitalizeAround | src/pages/Suppliers.tsx:72 | capitalising around a non-word character capitalises each side on its own |
| SuppliersPage.LowerWordCapitalized | src/pages/Suppliers.tsx:71-73 | a one-word status such as 'draft' gets its first letter upper-cased |
| SuppliersPage.FirstUnderscoreSpaced | src/pages/Suppliers.tsx:72 | the first '_' becomes a space and the rest is unchanged |
| SuppliersPage.TwoLowerWords | src/pages/Suppliers.tsx:71-73 | a status `a_b` of two lower-case words reads 'A B' with both initials upper-cased |
| SuppliersPage.PartiallyReceivedLabel | src/pages/Suppliers.tsx:71-73 | 'partially_received' reads 'Partially Received' |
| SuppliersPage.UnderscoresShown | src/pages/Suppliers.tsx:71-73 | with at most one '_' the label has none; a second '_' survives into the label |
| SuppliersPage.Rating | src/pages/Suppliers.tsx:146-158 | 'No rating' iff the rating is missing or 0; otherwise five stars, star i filled iff i < rating, and the caption `(<rating>/5)` |
| SuppliersPage.CountFilled | src/pages/Suppliers.tsx:148-152 | counts the filled stars, at most the number of stars |
| SuppliersPage.PrefixCount | src/pages/Suppliers.tsx:148-152 | stars filled exactly below k count k |
| SuppliersPage.FilledStarsIsRating | src/pages/Suppliers.tsx:146-158 | the number of filled stars is the rating clamped to [0, 5] |
| SuppliersPage.LeadTime | src/pages/Suppliers.tsx:167 | '-' iff the lead time is missing or 0; otherwise `<n> days` |
| SuppliersPage.LeadTimeShowsDays | src/pages/Suppliers.tsx:167 | different non-zero lead times render differently |
| InventoryPage.Known | src/services/inventoryService.ts:25 | recognises exactly the wire names of the four stock statuses |
| InventoryPage.StatusColorGrayIff | src/pages/Inventory.tsx:55-63 | gray iff the status is discontinued or unknown |
| InventoryPage.StatusColor | src/pages/Inventory.tsx:55-63 | `getStatusColor`; StatusColorGrayIff and StatusColorsDistinct state which statuses share a class |
| InventoryPage.StatusColorsDistinct | src/pages/Inventory.tsx:55-63 | two different stock statuses always get different classes |
| InventoryPage.StatusTextChangesKnown | src/pages/Inventory.tsx:65-73 | the label differs from the raw text exactly for the four statuses; any other text is shown as it is |
| InventoryPage.StatusTextInjectiveOnKnown | src/pages/Inventory.tsx:65-73 | the four labels are distinct |
| InventoryPage.StatusText | src/pages/Inventory.tsx:65-73 | `getStatusText`; StatusTextChangesKnown and StatusTextInjectiveOnKnown state that known statuses get four distinct labels and any other text is shown as it is |
| InventoryPage.FindWarehouse | src/pages/Inventory.tsx:125 | `find(w => w._id === id)`: the first warehouse with that id, or none when no warehouse carries it |
| InventoryPage.WarehouseCell | src/pages/Inventory.tsx:125-126 | `warehouse?.name \|\| item.warehouseId`; CellIsIdOrName, CellNamesFirstMatch and UnknownIdShown state what the cell shows |
| InventoryPage.CellIsIdOrName | src/pages/Inventory.tsx:124-127 | the cell is the raw id or the name of a warehouse with that id |
| InventoryPage.CellNamesFirstMatch | src/pages/Inventory.tsx:124-127 | the first warehouse with the id names the cell, unless its name is empty |
| InventoryPage.UnknownIdShown | src/pages/Inventory.tsx:124-127 | an id no warehouse carries is shown as it is |
| InventoryPage.RequestFor | src/pages/Inventory.tsx:28-30 | 'all' asks for the whole inventory; any other value asks for that warehouse's inventory |
| InventoryPage.RequestInjective | src/pages/Inventory.tsx:28-30 | different filter values ask for different lists |

## Left out

- Service calls, `loadData`, `Promise.all`, `window.confirm`, `alert` and `console` are left out, along with network errors and every page's fetch, delete and submit plumbing. They are I/O. A submit handler returns the payload it would hand to `onSubmit`, or `None`.
- The backend operations are left out: gift cards, purchase-order approval, stock reservation and pricing. They run on the server, and the services only forward them over HTTP.
- JSX markup and CSS are left out, beyond the label, colour and cell mappings.
- There is no floating point. Money, prices and quantities are integers, so `parseFloat`, `toFixed` and rounding are not modelled. A parse is given as `Option<int>`, with `None` for `NaN`.
- `Date.now()` is the parameter `now` of `SchoolSets.ItemId` and `SchoolSets.SchoolSetForm.AddItem`.
- React batching and stale closures are left out. Each handler is one atomic step. The add helpers test the same list they append to.
- Text is ASCII: `trim`, `\s`, `\w`, `\b`, `toLowerCase` and `toUpperCase` have no Unicode cases.
- `Ascii.IsBlank` is defined as "every character is whitespace". `Ascii.BlankIffTrimEmpty` proves that this is `!s.trim()`.
- An optional (`undefined`) text, number, flag or list in a form record is modelled as "", 0, false or []. The only exceptions are where the code tells `undefined` apart: submit payloads, years and the `?? true` flags.
- Entity types from `../types` are modelled by the fields the forms read, write or carry into the payload. The school-set and uniform records carry sku, barcode, weight, dimensions, specifications, metaTitle and metaDescription as `Common.Extras`. The book specification carries dimensions, weight and its other stored details as `BookSpecs.BookDetails`. Server-side fields the forms never read (ids, timestamps, reviews, awards, digital formats, additional specs) are left out.
- BookSpecs.SpecificationForm.HandleChange: the weight input's `parseFloat` is modelled as a whole number (`Option<int>`), like every other number here.
- Product-kind fields keep name, label, type, required, options and placeholder. No other attributes are modelled.
- Draft inputs that no input or button of the code uses are left out: `newKeyword` on the school-set editor, `newMaterial`, `newTag` and `newKeyword` on the uniform editor, and `newEditor`, `newIllustrator`, `newFeature` and `newObjective` on the book-specification editor. No behaviour depends on them.
- `SuppliersPage.StatusText`: there is no per-status table of the seven labels. They follow from `LowerWordCapitalized`, `TwoLowerWords` and `PartiallyReceivedLabel`.
- SuppliersPage.Rating: fractional ratings are not modelled, because ratings are integers here.
- The purchase-order summary, the statistics cards and the inventory summary are left out. They show server values as they are.
