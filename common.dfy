/** Pieces every form shares: optional values, the untyped value a
    `handleChange(field, value)` call carries, the error dictionary and the
    postal address sub-record. */
module Common {

  datatype Option<T> = None | Some(value: T)

  /** What a change handler receives: an input's text, a checkbox state,
      a number parsed with a `|| 0` fallback, or a number that is left
      `undefined` when the input is empty. */
  datatype Value = Str(text: string) | Flag(flag: bool) | Num(num: int) | OptNum(opt: Option<int>)

  /** `Record<string, string>` from field key to message. */
  type Errors = map<string, string>

  /** `if (errors[field]) setErrors(prev => ({ ...prev, [field]: '' }))`:
      a non-empty message for `key` is blanked, the entry itself stays. */
  function ClearError(errors: Errors, key: string): (r: Errors)
    ensures r.Keys == errors.Keys
    ensures key in r ==> r[key] == ""
    ensures forall k :: k in r && k != key ==> r[k] == errors[k]
  {
    if key in errors && errors[key] != "" then errors[key := ""] else errors
  }

  /** One `if (failed) newErrors[key] = message` step of a validator. */
  function Check(e: Errors, failed: bool, key: string, message: string): (r: Errors)
    ensures key in r <==> failed || key in e
    ensures r.Keys == if failed then e.Keys + {key} else e.Keys
    ensures forall k :: k in r ==> r[k] == if failed && k == key then message else e[k]
  {
    if failed then e[key := message] else e
  }

  /** `s || fallback` for a string: the empty string is falsy. */
  function OrText(s: string, fallback: string): (r: string)
    ensures s != "" ==> r == s
    ensures s == "" ==> r == fallback
  {
    if s != "" then s else fallback
  }

  /** `n || undefined` for an optional number: 0 is falsy. */
  function NonZero(n: Option<int>): (r: Option<int>)
    ensures r.Some? <==> n.Some? && n.value != 0
    ensures r.Some? ==> r == n
  {
    if n.Some? && n.value != 0 then n else None
  }

  /** `x ?? fallback`, and `x || fallback` for an object (an object is
      never falsy): only a missing value takes the fallback. */
  function OrElse<T>(x: Option<T>, fallback: T): (r: T)
    ensures x.Some? ==> r == x.value
    ensures x.None? ==> r == fallback
  {
    if x.Some? then x.value else fallback
  }

  /** A product's `{ length, width, height }`. */
  datatype Dimensions = Dimensions(length: int, width: int, height: int)

  const NoDimensions := Dimensions(0, 0, 0)

  /** The catalogue fields the school-set and uniform records share and their
      forms carry from the stored record to the payload without an input of
      their own. An absent text or weight is "" / 0 already; the dimensions
      and the specification dictionary may be missing. */
  datatype StoredExtras = StoredExtras(
    sku: string, barcode: string, weight: int, dimensions: Option<Dimensions>,
    specifications: Option<map<string, string>>, metaTitle: string, metaDescription: string)

  /** The same fields in `formData`. */
  datatype Extras = Extras(
    sku: string, barcode: string, weight: int, dimensions: Dimensions,
    specifications: map<string, string>, metaTitle: string, metaDescription: string)

  /** The create-mode values: empty texts, weight 0, zero dimensions, `{}`. */
  const NoExtras := Extras("", "", 0, NoDimensions, map[], "", "")

  /** The edit-mode seed of the shared fields: every stored value is kept and
      a missing one takes its create-mode value, so a record without any of
      them seeds exactly `NoExtras`. */
  function ExtrasFrom(s: StoredExtras): (e: Extras)
    ensures e.sku == s.sku && e.barcode == s.barcode && e.weight == s.weight
    ensures e.metaTitle == s.metaTitle && e.metaDescription == s.metaDescription
    ensures s.dimensions.Some? ==> e.dimensions == s.dimensions.value
    ensures s.dimensions.None? ==> e.dimensions == NoDimensions
    ensures s.specifications.Some? ==> e.specifications == s.specifications.value
    ensures s.specifications.None? ==> e.specifications == map[]
    ensures s == StoredExtras("", "", 0, None, None, "", "") ==> e == NoExtras
  {
    Extras(OrText(s.sku, ""), OrText(s.barcode, ""), s.weight,
           OrElse(s.dimensions, NoDimensions), OrElse(s.specifications, map[]),
           OrText(s.metaTitle, ""), OrText(s.metaDescription, ""))
  }

  datatype Address = Address(street: string, city: string, state: string, postalCode: string, country: string)

  datatype AddressPart = Street | City | State | PostalCode | Country

  function PartOf(a: Address, p: AddressPart): string {
    match p
    case Street => a.street
    case City => a.city
    case State => a.state
    case PostalCode => a.postalCode
    case Country => a.country
  }

  /** `{ ...prev.address, [field]: value }`: exactly one component changes. */
  function WithPart(a: Address, p: AddressPart, v: string): (r: Address)
    ensures forall q :: PartOf(r, q) == if q == p then v else PartOf(a, q)
  {
    match p
    case Street => a.(street := v)
    case City => a.(city := v)
    case State => a.(state := v)
    case PostalCode => a.(postalCode := v)
    case Country => a.(country := v)
  }

  /** `Object.values(address).some(val => val)`. */
  predicate AnyPartSet(a: Address) {
    exists p :: PartOf(a, p) != ""
  }

  lemma AnyPartSetIff(a: Address)
    ensures AnyPartSet(a) <==>
      a.street != "" || a.city != "" || a.state != "" || a.postalCode != "" || a.country != ""
  {
    if a.street != "" { assert PartOf(a, Street) != ""; }
    if a.city != "" { assert PartOf(a, City) != ""; }
    if a.state != "" { assert PartOf(a, State) != ""; }
    if a.postalCode != "" { assert PartOf(a, PostalCode) != ""; }
    if a.country != "" { assert PartOf(a, Country) != ""; }
  }

  const EmptyAddress := Address("", "", "", "", "")
  const IndianAddress := Address("", "", "", "", "India")

  /** `list.filter((_, j) => j !== i)`: drops position `i`, keeps the order
      of the rest, and leaves the list alone when `i` is out of range. */
  function DropIndex<T>(s: seq<T>, i: int): (r: seq<T>)
    ensures 0 <= i < |s| ==> r == s[..i] + s[i + 1..]
    ensures !(0 <= i < |s|) ==> r == s
    decreases |s|
  {
    if s == [] then []
    else
      var rest := DropIndex(s[1..], i - 1);
      assert s == [s[0]] + s[1..];
      if i == 0 then rest else [s[0]] + rest
  }
}
