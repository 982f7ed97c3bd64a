/** The Vendor document with its embedded menu (backend/models/Vendor.js). */
module VendorModel {
  import opened Common

  const DefaultRole: string := "vendor"

  /** An embedded menu entry; only `available` has a default. */
  datatype MenuEntry = MenuEntry(
    id: Id,
    itemName: Option<string>,
    description: Option<string>,
    price: Option<int>,
    image: Option<string>,
    available: bool)

  /** Entry fields as a request body supplies them; an absent field is None. */
  datatype EntryFields = EntryFields(
    itemName: Option<string>,
    description: Option<string>,
    price: Option<int>,
    image: Option<string>,
    available: Option<bool>)

  datatype Vendor = Vendor(
    id: Id,
    name: string,
    email: string,
    passwordHash: string,
    address: Option<string>,
    contactNumber: Option<string>,
    cuisineType: Option<string>,
    menu: seq<MenuEntry>,
    role: string)

  /** The fields passed to `new Vendor({...})`. */
  datatype VendorDraft = VendorDraft(
    name: string,
    email: string,
    passwordHash: string,
    address: Option<string>,
    contactNumber: Option<string>,
    cuisineType: Option<string>)

  /** A new embedded entry: every given field kept, `available` defaulting to true. */
  function NewEntry(id: Id, f: EntryFields): (e: MenuEntry)
    ensures e.id == id && e.itemName == f.itemName && e.description == f.description
    ensures e.price == f.price && e.image == f.image
    ensures e.available == (f.available != Some(false))
  {
    MenuEntry(id, f.itemName, f.description, f.price, f.image,
              if f.available.Some? then f.available.value else true)
  }

  predicate DraftValid(d: VendorDraft)
  {
    Present(d.name) && Present(d.email) && Present(d.passwordHash)
  }

  /** Validation on `vendor.save()`: name, email and hash required; empty menu; default role. */
  function Validate(id: Id, d: VendorDraft): (r: Result<Vendor>)
    ensures r.Ok? <==> DraftValid(d)
    ensures r.Err? ==> r.code == 500
    ensures r.Ok? ==> && r.value.id == id
                      && r.value.name == d.name
                      && r.value.email == d.email
                      && r.value.passwordHash == d.passwordHash
                      && r.value.address == d.address
                      && r.value.contactNumber == d.contactNumber
                      && r.value.cuisineType == d.cuisineType
                      && r.value.menu == []
                      && r.value.role == DefaultRole
  {
    if DraftValid(d) then
      Ok(Vendor(id, d.name, d.email, d.passwordHash, d.address, d.contactNumber, d.cuisineType, [], DefaultRole))
    else
      Err(500, "Vendor validation failed")
  }

  /** The unique index on `email`: no two vendors share one. */
  ghost predicate UniqueEmails(vs: seq<Vendor>)
  {
    forall i, j :: 0 <= i < j < |vs| ==> vs[i].email != vs[j].email
  }
}
