/** The Customer document (backend/models/Customer.js). */
module CustomerModel {
  import opened Common

  const DefaultRole: string := "customer"
  const DefaultLabel: string := "Home"

  /** An address entry as the schema declares it. */
  datatype AddressEntry = AddressEntry(addressLabel: string, address: string)

  /** A favourite: a vendor and one of its items. */
  datatype Favorite = Favorite(vendorId: Option<Id>, itemId: Option<Id>)

  /**
   * A stored customer. The routes and the profile page store addresses as
   * plain strings, so that is what `addresses` holds here.
   */
  datatype Customer = Customer(
    id: Id,
    name: string,
    email: string,
    passwordHash: string,
    contactNumber: Option<string>,
    addresses: seq<string>,
    favorites: seq<Favorite>,
    role: string)

  datatype CustomerDraft = CustomerDraft(
    name: string,
    email: string,
    passwordHash: string,
    contactNumber: Option<string>,
    addresses: seq<string>)

  /** An address entry cast by the schema: the text is required, the label defaults to "Home". */
  function NewAddressEntry(address: string, addressLabel: Option<string>): (r: Result<AddressEntry>)
    ensures r.Ok? <==> Present(address)
    ensures r.Ok? ==> r.value.address == address
    ensures r.Ok? ==> r.value.addressLabel == (if addressLabel.Some? then addressLabel.value else DefaultLabel)
  {
    if !Present(address) then Err(500, "Customer validation failed")
    else Ok(AddressEntry(if addressLabel.Some? then addressLabel.value else DefaultLabel, address))
  }

  predicate DraftValid(d: CustomerDraft)
  {
    Present(d.name) && Present(d.email) && Present(d.passwordHash)
  }

  /** Validation on `customer.save()`: name, email and hash required; default role. */
  function Validate(id: Id, d: CustomerDraft): (r: Result<Customer>)
    ensures r.Ok? <==> DraftValid(d)
    ensures r.Err? ==> r.code == 500
    ensures r.Ok? ==> && r.value.id == id
                      && r.value.name == d.name
                      && r.value.email == d.email
                      && r.value.passwordHash == d.passwordHash
                      && r.value.contactNumber == d.contactNumber
                      && r.value.addresses == d.addresses
                      && r.value.favorites == []
                      && r.value.role == DefaultRole
  {
    if DraftValid(d) then
      Ok(Customer(id, d.name, d.email, d.passwordHash, d.contactNumber, d.addresses, [], DefaultRole))
    else
      Err(500, "Customer validation failed")
  }

  /** The unique index on `email`. */
  ghost predicate UniqueEmails(cs: seq<Customer>)
  {
    forall i, j :: 0 <= i < j < |cs| ==> cs[i].email != cs[j].email
  }
}
