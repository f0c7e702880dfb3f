/** The warehouse editor (src/components/products/WarehouseForm.tsx): a
    record with a nested address and a free-form contact dictionary, a
    four-key validator whose last two keys belong to the address, and the
    create-mode defaults. */
module Warehouses {
  import opened Common
  import opened Ascii

  /** A stored warehouse as the form reads it; an absent text is "", an
      absent number 0, and the two flags may be missing. */
  datatype Warehouse = Warehouse(
    name: string, code: string, description: string, address: Option<Address>,
    contact: Option<map<string, string>>, capacity: int,
    isPrimary: Option<bool>, isActive: Option<bool>)

  /** The form record (`formData`). */
  datatype WarehouseData = WarehouseData(
    name: string, code: string, description: string, address: Address,
    contact: map<string, string>, capacity: int, isPrimary: bool, isActive: bool)

  const Blank := WarehouseData("", "", "", IndianAddress, map[], 0, false, true)

  /** The initial `formData`: in create mode the address is empty but for the
      country 'India', the contact empty, the capacity 0, and the warehouse
      active but not primary; in edit mode the stored values are copied, a
      missing flag taking its create-mode default. */
  function Seed(warehouse: Option<Warehouse>): (d: WarehouseData)
    ensures warehouse.None? ==> d == Blank
    ensures warehouse.None? ==> d.address.country == "India" && d.capacity == 0 && !d.isPrimary && d.isActive
    ensures warehouse.Some? ==>
      var w := warehouse.value;
      && d.name == w.name && d.code == w.code && d.description == w.description
      && d.address == (if w.address.Some? then w.address.value else IndianAddress)
      && d.contact == (if w.contact.Some? then w.contact.value else map[])
      && d.capacity == w.capacity
      && d.isPrimary == (w.isPrimary.Some? && w.isPrimary.value)
      && d.isActive == (w.isActive.None? || w.isActive.value)
  {
    match warehouse
    case None => Blank
    case Some(w) =>
      WarehouseData(OrText(w.name, ""), OrText(w.code, ""), OrText(w.description, ""),
                    match w.address case Some(a) => a case None => IndianAddress,
                    match w.contact case Some(c) => c case None => map[],
                    w.capacity, OrElse(w.isPrimary, false), OrElse(w.isActive, true))
  }

  /** The keys `handleChange` is called with. */
  datatype WarehouseField = Name | Code | Description | Capacity | IsActive | IsPrimary

  function Key(f: WarehouseField): string {
    match f
    case Name => "name"
    case Code => "code"
    case Description => "description"
    case Capacity => "capacity"
    case IsActive => "isActive"
    case IsPrimary => "isPrimary"
  }

  /** The capacity input passes `parseInt(value) || 0`, the checkboxes a
      flag, every other input its text. */
  predicate Fits(f: WarehouseField, v: Value) {
    match f
    case Capacity => v.Num?
    case IsActive => v.Flag?
    case IsPrimary => v.Flag?
    case _ => v.Str?
  }

  function Get(d: WarehouseData, f: WarehouseField): (v: Value)
    ensures Fits(f, v)
  {
    match f
    case Name => Str(d.name)
    case Code => Str(d.code)
    case Description => Str(d.description)
    case Capacity => Num(d.capacity)
    case IsActive => Flag(d.isActive)
    case IsPrimary => Flag(d.isPrimary)
  }

  /** `{ ...prev, [field]: value }`: only the named field changes. */
  function Put(d: WarehouseData, f: WarehouseField, v: Value): (r: WarehouseData)
    requires Fits(f, v)
    ensures forall g :: Get(r, g) == if g == f then v else Get(d, g)
    ensures r.address == d.address && r.contact == d.contact
  {
    match f
    case Name => d.(name := v.text)
    case Code => d.(code := v.text)
    case Description => d.(description := v.text)
    case Capacity => d.(capacity := v.num)
    case IsActive => d.(isActive := v.flag)
    case IsPrimary => d.(isPrimary := v.flag)
  }

  /** The contact inputs of the form. */
  datatype ContactKey = Phone | Email | Manager

  function ContactName(k: ContactKey): string {
    match k
    case Phone => "phone"
    case Email => "email"
    case Manager => "manager"
  }

  /** `{ ...prev.contact, [field]: value }`: one entry is set, the others keep
      their values and no other entry appears or disappears. */
  function WithContact(contact: map<string, string>, key: string, v: string): (r: map<string, string>)
    ensures r.Keys == contact.Keys + {key}
    ensures r[key] == v
    ensures forall k :: k in contact && k != key ==> r[k] == contact[k]
  {
    contact[key := v]
  }

  const NameRequired := "Name is required"
  const CodeRequired := "Code is required"
  const StreetRequired := "Street address is required"
  const CityRequired := "City is required"

  /** The dictionary `validateForm` builds; the address rules report under
      the bare keys 'street' and 'city'. */
  function FormErrors(d: WarehouseData): (e: Errors)
    ensures "name" in e <==> IsBlank(d.name)
    ensures "code" in e <==> IsBlank(d.code)
    ensures "street" in e <==> IsBlank(d.address.street)
    ensures "city" in e <==> IsBlank(d.address.city)
    ensures e.Keys <= {"name", "code", "street", "city"}
    ensures "name" in e ==> e["name"] == NameRequired
    ensures "code" in e ==> e["code"] == CodeRequired
    ensures "street" in e ==> e["street"] == StreetRequired
    ensures "city" in e ==> e["city"] == CityRequired
  {
    var e1 := Check(map[], IsBlank(d.name), "name", NameRequired);
    var e2 := Check(e1, IsBlank(d.code), "code", CodeRequired);
    var e3 := Check(e2, IsBlank(d.address.street), "street", StreetRequired);
    Check(e3, IsBlank(d.address.city), "city", CityRequired)
  }

  predicate Submittable(d: WarehouseData) {
    !IsBlank(d.name) && !IsBlank(d.code) && !IsBlank(d.address.street) && !IsBlank(d.address.city)
  }

  lemma ValidIff(d: WarehouseData)
    ensures FormErrors(d) == map[] <==> Submittable(d)
  {
    var e := FormErrors(d);
    if !Submittable(d) {
      assert "name" in e || "code" in e || "street" in e || "city" in e;
    }
  }

  /** Filling in the street removes the cause of the 'street' error, but the
      address handler does not touch the error dictionary (see
      `WarehouseForm.HandleAddressChange`), so a message shown by the last
      validation stays on screen until the next one. */
  lemma StreetErrorGoesStale(d: WarehouseData, street: string)
    requires !IsBlank(street)
    ensures "street" !in FormErrors(d.(address := WithPart(d.address, Street, street)))
  {
    var a := WithPart(d.address, Street, street);
    assert PartOf(a, Street) == street;
  }

  /** The same holds for the city. */
  lemma CityErrorGoesStale(d: WarehouseData, city: string)
    requires !IsBlank(city)
    ensures "city" !in FormErrors(d.(address := WithPart(d.address, City, city)))
  {
    var a := WithPart(d.address, City, city);
    assert PartOf(a, City) == city;
  }

  class WarehouseForm {
    var data: WarehouseData
    var errors: Errors

    constructor (warehouse: Option<Warehouse>)
      ensures data == Seed(warehouse) && errors == map[]
    {
      data := Seed(warehouse);
      errors := map[];
    }

    /** Each `Check` is one `if (...) newErrors[key] = message` of the source. */
    method ValidateForm() returns (valid: bool)
      modifies this`errors
      ensures errors == FormErrors(data)
      ensures valid <==> Submittable(data)
    {
      var newErrors: Errors := map[];
      newErrors := Check(newErrors, IsBlank(data.name), "name", NameRequired);
      newErrors := Check(newErrors, IsBlank(data.code), "code", CodeRequired);
      newErrors := Check(newErrors, IsBlank(data.address.street), "street", StreetRequired);
      newErrors := Check(newErrors, IsBlank(data.address.city), "city", CityRequired);
      errors := newErrors;
      ValidIff(data);
      valid := newErrors == map[];
    }

    /** Returns the record handed to `onSubmit`, or `None` when it is not called. */
    method HandleSubmit() returns (submitted: Option<WarehouseData>)
      modifies this`errors
      ensures errors == FormErrors(data)
      ensures submitted.None? <==> !Submittable(data)
      ensures submitted.Some? ==> submitted.value == data
    {
      var valid := ValidateForm();
      if !valid {
        return None;
      }
      return Some(data);
    }

    method HandleChange(field: WarehouseField, value: Value)
      requires Fits(field, value)
      modifies this`data, this`errors
      ensures data == Put(old(data), field, value)
      ensures errors == ClearError(old(errors), Key(field))
    {
      data := Put(data, field, value);
      if Key(field) in errors && errors[Key(field)] != "" {
        errors := errors[Key(field) := ""];
      }
    }

    /** Replaces one address component; the errors, 'street' and 'city'
        included, are left alone. */
    method HandleAddressChange(part: AddressPart, value: string)
      modifies this`data
      ensures data == old(data).(address := WithPart(old(data).address, part, value))
    {
      data := data.(address := WithPart(data.address, part, value));
    }

    /** Sets one contact entry; the address and the errors are left alone. */
    method HandleContactChange(key: ContactKey, value: string)
      modifies this`data
      ensures data == old(data).(contact := WithContact(old(data).contact, ContactName(key), value))
      ensures data.address == old(data).address
    {
      data := data.(contact := data.contact[ContactName(key) := value]);
    }
  }
}
