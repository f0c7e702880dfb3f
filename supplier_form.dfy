/** The supplier editor (src/components/products/SupplierForm.tsx): a flat
    record with a nested address, a validator with two required keys and an
    e-mail shape check, and the create-mode defaults. */
module Suppliers {
  import opened Common
  import opened Ascii

  /** A stored supplier as the form reads it; an absent text is "" and an
      absent number 0. */
  datatype Supplier = Supplier(
    name: string, code: string, contactPerson: string, email: string,
    phone: string, website: string, address: Option<Address>,
    paymentTerms: string, creditLimit: int, currency: string, taxId: string,
    notes: string, isActive: bool, rating: int, leadTime: int, minimumOrderAmount: int)

  /** The form record (`formData`). */
  datatype SupplierData = SupplierData(
    name: string, code: string, contactPerson: string, email: string,
    phone: string, website: string, address: Address,
    paymentTerms: string, creditLimit: int, currency: string, taxId: string,
    notes: string, isActive: bool, rating: int, leadTime: int, minimumOrderAmount: int)

  const Blank := SupplierData("", "", "", "", "", "", IndianAddress, "", 0, "INR", "", "",
                              true, 0, 0, 0)

  /** The initial `formData`: in create mode the address is empty but for the
      country 'India', the currency is 'INR', the supplier is active and every
      number is 0; in edit mode the stored values are copied, an empty currency
      reading as 'INR'. */
  function Seed(supplier: Option<Supplier>): (d: SupplierData)
    ensures supplier.None? ==> d == Blank
    ensures supplier.None? ==> d.address.country == "India" && d.currency == "INR" && d.isActive
    ensures supplier.None? ==> d.creditLimit == 0 && d.rating == 0 && d.leadTime == 0 && d.minimumOrderAmount == 0
    ensures supplier.Some? ==>
      var s := supplier.value;
      && d.name == s.name && d.code == s.code && d.contactPerson == s.contactPerson
      && d.email == s.email && d.phone == s.phone && d.website == s.website
      && d.address == (if s.address.Some? then s.address.value else IndianAddress)
      && d.paymentTerms == s.paymentTerms && d.creditLimit == s.creditLimit
      && d.currency == (if s.currency == "" then "INR" else s.currency)
      && d.taxId == s.taxId && d.notes == s.notes && d.isActive == s.isActive
      && d.rating == s.rating && d.leadTime == s.leadTime
      && d.minimumOrderAmount == s.minimumOrderAmount
  {
    match supplier
    case None => Blank
    case Some(s) =>
      SupplierData(OrText(s.name, ""), OrText(s.code, ""), OrText(s.contactPerson, ""),
                   OrText(s.email, ""), OrText(s.phone, ""), OrText(s.website, ""),
                   match s.address case Some(a) => a case None => IndianAddress,
                   OrText(s.paymentTerms, ""), s.creditLimit, OrText(s.currency, "INR"),
                   OrText(s.taxId, ""), OrText(s.notes, ""), s.isActive,
                   s.rating, s.leadTime, s.minimumOrderAmount)
  }

  /** The keys `handleChange` is called with. */
  datatype SupplierField = Name | Code | ContactPerson | Email | Phone | Website
                         | CreditLimit | Currency | MinimumOrderAmount | LeadTime
                         | PaymentTerms | TaxId | Notes | IsActive

  function Key(f: SupplierField): string {
    match f
    case Name => "name"
    case Code => "code"
    case ContactPerson => "contactPerson"
    case Email => "email"
    case Phone => "phone"
    case Website => "website"
    case CreditLimit => "creditLimit"
    case Currency => "currency"
    case MinimumOrderAmount => "minimumOrderAmount"
    case LeadTime => "leadTime"
    case PaymentTerms => "paymentTerms"
    case TaxId => "taxId"
    case Notes => "notes"
    case IsActive => "isActive"
  }

  /** The three amount inputs pass a number (`parse...(value) || 0`), the
      checkbox a flag, every other input its text. */
  predicate Fits(f: SupplierField, v: Value) {
    match f
    case CreditLimit => v.Num?
    case MinimumOrderAmount => v.Num?
    case LeadTime => v.Num?
    case IsActive => v.Flag?
    case _ => v.Str?
  }

  function Get(d: SupplierData, f: SupplierField): (v: Value)
    ensures Fits(f, v)
  {
    match f
    case Name => Str(d.name)
    case Code => Str(d.code)
    case ContactPerson => Str(d.contactPerson)
    case Email => Str(d.email)
    case Phone => Str(d.phone)
    case Website => Str(d.website)
    case CreditLimit => Num(d.creditLimit)
    case Currency => Str(d.currency)
    case MinimumOrderAmount => Num(d.minimumOrderAmount)
    case LeadTime => Num(d.leadTime)
    case PaymentTerms => Str(d.paymentTerms)
    case TaxId => Str(d.taxId)
    case Notes => Str(d.notes)
    case IsActive => Flag(d.isActive)
  }

  /** `{ ...prev, [field]: value }`: only the named field changes, the
      address and the rating included. */
  function Put(d: SupplierData, f: SupplierField, v: Value): (r: SupplierData)
    requires Fits(f, v)
    ensures forall g :: Get(r, g) == if g == f then v else Get(d, g)
    ensures r.address == d.address && r.rating == d.rating
  {
    match f
    case Name => d.(name := v.text)
    case Code => d.(code := v.text)
    case ContactPerson => d.(contactPerson := v.text)
    case Email => d.(email := v.text)
    case Phone => d.(phone := v.text)
    case Website => d.(website := v.text)
    case CreditLimit => d.(creditLimit := v.num)
    case Currency => d.(currency := v.text)
    case MinimumOrderAmount => d.(minimumOrderAmount := v.num)
    case LeadTime => d.(leadTime := v.num)
    case PaymentTerms => d.(paymentTerms := v.text)
    case TaxId => d.(taxId := v.text)
    case Notes => d.(notes := v.text)
    case IsActive => d.(isActive := v.flag)
  }

  /** `[^\s@]`: a character the e-mail pattern allows in each of its parts. */
  predicate PartChar(c: char) {
    !IsSpace(c) && c != '@'
  }

  /** `[^\s@]+`. */
  predicate Part(s: string) {
    |s| > 0 && forall i :: 0 <= i < |s| ==> PartChar(s[i])
  }

  /** `[^\s@]+\.[^\s@]+`: no whitespace or '@', and a '.' with text on both sides. */
  predicate Domain(s: string) {
    Part(s) && exists p | 0 < p < |s| - 1 :: s[p] == '.'
  }

  /** The check `validateForm` makes, written over positions: a '@' with a
      local part before it and a dotted domain after it. */
  predicate EmailShape(s: string) {
    exists i | 0 <= i < |s| :: s[i] == '@' && Part(s[..i]) && Domain(s[i + 1..])
  }

  /** What `/^[^\s@]+@[^\s@]+\.[^\s@]+$/` accepts, written as the pattern's
      own concatenation of parts. */
  ghost predicate MatchesPattern(s: string) {
    exists a: string, b: string, c: string :: Part(a) && Part(b) && Part(c) && s == Address3(a, b, c)
  }

  /** `local@host.top`. */
  function Address3(local: string, host: string, top: string): string {
    local + "@" + host + "." + top
  }

  lemma PartConcat(x: string, y: string)
    requires Part(x) && Part(y)
    ensures forall i :: 0 <= i < |x + "." + y| ==> PartChar((x + "." + y)[i])
  {
    var z := x + "." + y;
    forall i | 0 <= i < |z| ensures PartChar(z[i]) {
      if i < |x| { assert z[i] == x[i]; }
      else if i == |x| { assert z[i] == '.'; }
      else { assert z[i] == y[i - |x| - 1]; }
    }
  }

  lemma ShapeGivesPattern(s: string)
    requires EmailShape(s)
    ensures MatchesPattern(s)
  {
    var i :| 0 <= i < |s| && s[i] == '@' && Part(s[..i]) && Domain(s[i + 1..]);
    var dom := s[i + 1..];
    var p :| 0 < p < |dom| - 1 && dom[p] == '.';
    var a, b, c := s[..i], dom[..p], dom[p + 1..];
    assert Part(b) by {
      forall k | 0 <= k < |b| ensures PartChar(b[k]) { assert b[k] == dom[k]; }
    }
    assert Part(c) by {
      forall k | 0 <= k < |c| ensures PartChar(c[k]) { assert c[k] == dom[p + 1 + k]; }
    }
    SplitAround(dom, p);
    SplitAround(s, i);
    Address3Nested(a, b, c);
    assert s == Address3(a, b, c);
  }

  lemma SplitAround(s: string, i: int)
    requires 0 <= i < |s|
    ensures s == s[..i] + [s[i]] + s[i + 1..]
  {
  }

  lemma Address3Nested(a: string, b: string, c: string)
    ensures Address3(a, b, c) == a + "@" + (b + "." + c)
  {
  }

  lemma PatternGivesShape(a: string, b: string, c: string)
    requires Part(a) && Part(b) && Part(c)
    ensures EmailShape(Address3(a, b, c))
  {
    var s := Address3(a, b, c);
    var i := |a|;
    var dom := b + "." + c;
    assert s == a + "@" + dom;
    assert s[i] == '@';
    assert s[..i] == a;
    assert s[i + 1..] == dom;
    PartConcat(b, c);
    assert dom[|b|] == '.';
    assert Domain(dom);
  }

  /** The position check and the pattern accept the same strings. */
  lemma EmailShapeIffPattern(s: string)
    ensures EmailShape(s) <==> MatchesPattern(s)
  {
    if EmailShape(s) {
      ShapeGivesPattern(s);
    }
    if MatchesPattern(s) {
      var a: string, b: string, c: string :| Part(a) && Part(b) && Part(c) && s == Address3(a, b, c);
      PatternGivesShape(a, b, c);
    }
  }

  /** An accepted address has exactly one '@', and no whitespace at all. */
  lemma EmailShapeOneAt(s: string)
    requires EmailShape(s)
    ensures exists i :: 0 <= i < |s| && s[i] == '@' && forall j :: 0 <= j < |s| && s[j] == '@' ==> j == i
    ensures forall j :: 0 <= j < |s| ==> !IsSpace(s[j])
  {
    var i :| 0 <= i < |s| && s[i] == '@' && Part(s[..i]) && Domain(s[i + 1..]);
    forall j | 0 <= j < |s| && j != i ensures PartChar(s[j]) {
      if j < i { assert s[j] == s[..i][j]; } else { assert s[j] == s[i + 1..][j - i - 1]; }
    }
  }

  lemma AcceptsPlainAddress()
    ensures EmailShape("a@b.c")
  {
    PatternGivesShape("a", "b", "c");
    assert Address3("a", "b", "c") == "a@b.c";
  }

  /** Without a '.' after the '@' the address is refused. */
  lemma RefusesMissingDot()
    ensures !EmailShape("a@b")
  {
    var s := "a@b";
    forall i | 0 <= i < |s| && s[i] == '@' ensures !Domain(s[i + 1..]) {
      assert i == 1;
      assert |s[i + 1..]| == 1;
    }
  }

  /** An empty local part is refused. */
  lemma RefusesEmptyLocal()
    ensures !EmailShape("@b.c")
  {
    var s := "@b.c";
    forall i | 0 <= i < |s| && s[i] == '@' ensures !Part(s[..i]) {
      assert i == 0;
    }
  }

  /** A space anywhere is refused. */
  lemma RefusesSpace()
    ensures !EmailShape("a b@c.d")
  {
    var s := "a b@c.d";
    forall i | 0 <= i < |s| && s[i] == '@' ensures !Part(s[..i]) {
      assert i == 3;
      assert s[..i][1] == ' ';
    }
  }

  const NameRequired := "Name is required"
  const CodeRequired := "Code is required"
  const EmailInvalid := "Invalid email format"

  /** The dictionary `validateForm` builds: an empty e-mail is not checked. */
  function FormErrors(d: SupplierData): (e: Errors)
    ensures "name" in e <==> IsBlank(d.name)
    ensures "code" in e <==> IsBlank(d.code)
    ensures "email" in e <==> d.email != "" && !EmailShape(d.email)
    ensures e.Keys <= {"name", "code", "email"}
    ensures "name" in e ==> e["name"] == NameRequired
    ensures "code" in e ==> e["code"] == CodeRequired
    ensures "email" in e ==> e["email"] == EmailInvalid
  {
    var e1 := Check(map[], IsBlank(d.name), "name", NameRequired);
    var e2 := Check(e1, IsBlank(d.code), "code", CodeRequired);
    Check(e2, d.email != "" && !EmailShape(d.email), "email", EmailInvalid)
  }

  predicate Submittable(d: SupplierData) {
    !IsBlank(d.name) && !IsBlank(d.code) && (d.email == "" || EmailShape(d.email))
  }

  lemma ValidIff(d: SupplierData)
    ensures FormErrors(d) == map[] <==> Submittable(d)
  {
    var e := FormErrors(d);
    if !Submittable(d) {
      assert "name" in e || "code" in e || "email" in e;
    }
  }

  class SupplierForm {
    var data: SupplierData
    var errors: Errors

    constructor (supplier: Option<Supplier>)
      ensures data == Seed(supplier) && errors == map[]
    {
      data := Seed(supplier);
      errors := map[];
    }

    /** Each `Check` is one `if (...) newErrors[key] = message` of the source. */
    method ValidateForm() returns (valid: bool)
      modifies this`errors
      ensures errors == FormErrors(data)
      ensures valid <==> Submittable(data)
    {
      var newErrors: Errors := map[];
      newErrors := Check(newErrors, IsBlank(data.name), "name", NameRequired);
      newErrors := Check(newErrors, IsBlank(data.code), "code", CodeRequired);
      newErrors := Check(newErrors, data.email != "" && !EmailShape(data.email), "email", EmailInvalid);
      errors := newErrors;
      ValidIff(data);
      valid := newErrors == map[];
    }

    /** Returns the record handed to `onSubmit`, or `None` when it is not called. */
    method HandleSubmit() returns (submitted: Option<SupplierData>)
      modifies this`errors
      ensures errors == FormErrors(data)
      ensures submitted.None? <==> !Submittable(data)
      ensures submitted.Some? ==> submitted.value == data
    {
      var valid := ValidateForm();
      if !valid {
        return None;
      }
      return Some(data);
    }

    method HandleChange(field: SupplierField, value: Value)
      requires Fits(field, value)
      modifies this`data, this`errors
      ensures data == Put(old(data), field, value)
      ensures errors == ClearError(old(errors), Key(field))
    {
      data := Put(data, field, value);
      if Key(field) in errors && errors[Key(field)] != "" {
        errors := errors[Key(field) := ""];
      }
    }

    /** Replaces one address component; the errors are left alone. */
    method HandleAddressChange(part: AddressPart, value: string)
      modifies this`data
      ensures data == old(data).(address := WithPart(old(data).address, part, value))
    {
      data := data.(address := WithPart(data.address, part, value));
    }
  }
}
