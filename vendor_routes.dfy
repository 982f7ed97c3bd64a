/**
 * The vendor collection and the vendor routes: registration and login, the
 * embedded menu (push, update by id, delete by id), the public listing, and
 * the owner-only profile update and delete. Password hashing and comparison
 * are parameters standing for bcrypt; the acting vendor is a parameter, None
 * when the request carries no vendor.
 */
module VendorRoutes {
  import opened Common
  import opened VendorModel
  import opened Lists

  /** The body of POST /api/vendor/register. */
  datatype Registration = Registration(
    name: string,
    email: string,
    password: string,
    address: Option<string>,
    contactNumber: Option<string>,
    cuisineType: Option<string>)

  /** The profile fields an update may supply; absent is None. */
  datatype ProfileFields = ProfileFields(
    name: Option<string>,
    email: Option<string>,
    address: Option<string>,
    contactNumber: Option<string>,
    cuisineType: Option<string>)

  /** A vendor as the public listing shows it. */
  datatype PublicVendor = PublicVendor(
    id: Id,
    name: string,
    address: Option<string>,
    contactNumber: Option<string>,
    cuisineType: Option<string>,
    menu: seq<MenuEntry>,
    avgRating: string,
    image: string)

  /** The claims a login or registration signs into its token. */
  datatype TokenClaims = TokenClaims(id: Id, role: string)

  /** `Vendor.findById`: the position of the vendor with this id, or -1. */
  function IndexOfId(vs: seq<Vendor>, id: Id): (i: int)
    ensures -1 <= i < |vs|
    ensures i >= 0 ==> vs[i].id == id
    ensures i == -1 <==> forall j :: 0 <= j < |vs| ==> vs[j].id != id
  {
    FirstIndex(vs, (v: Vendor) => v.id == id)
  }

  /** `Vendor.findOne({ email })`: the position of the first vendor with this email, or -1. */
  function IndexOfEmail(vs: seq<Vendor>, email: string): (i: int)
    ensures -1 <= i < |vs|
    ensures i >= 0 ==> vs[i].email == email
    ensures i == -1 <==> forall j :: 0 <= j < |vs| ==> vs[j].email != email
  {
    FirstIndex(vs, (v: Vendor) => v.email == email)
  }

  /** `vendor.menu.id(itemId)`: the position of the entry with this id, or -1. */
  function IndexOfEntry(menu: seq<MenuEntry>, itemId: Id): (i: int)
    ensures -1 <= i < |menu|
    ensures i >= 0 ==> menu[i].id == itemId
    ensures i == -1 <==> forall j :: 0 <= j < |menu| ==> menu[j].id != itemId
  {
    FirstIndex(menu, (e: MenuEntry) => e.id == itemId)
  }

  /**
   * The public projection of one vendor. `avgRating` and `image` are not
   * schema paths, so the stored document never has them and the fallbacks
   * "0" and "" always apply.
   */
  function PublicView(v: Vendor): (p: PublicVendor)
    ensures p.id == v.id && p.name == v.name && p.menu == v.menu
    ensures p.address == v.address && p.contactNumber == v.contactNumber && p.cuisineType == v.cuisineType
    ensures p.avgRating == "0" && p.image == ""
  {
    PublicVendor(v.id, v.name, v.address, v.contactNumber, v.cuisineType, v.menu,
                 OrDefault(None, "0"), OrDefault(None, ""))
  }

  /** The listing is the same for any two vendors that differ only in email, hash or role. */
  lemma PublicViewHidesCredentials(v: Vendor, email: string, passwordHash: string, role: string)
    ensures PublicView(v) == PublicView(v.(email := email, passwordHash := passwordHash, role := role))
  {
  }

  /** `Object.assign(item, body)`: each supplied field overwrites, the id and the others stay. */
  function AssignEntry(e: MenuEntry, patch: EntryFields): (r: MenuEntry)
    ensures r.id == e.id
    ensures r.itemName == (if patch.itemName.Some? then patch.itemName else e.itemName)
    ensures r.description == (if patch.description.Some? then patch.description else e.description)
    ensures r.price == (if patch.price.Some? then patch.price else e.price)
    ensures r.image == (if patch.image.Some? then patch.image else e.image)
    ensures r.available == (if patch.available.Some? then patch.available.value else e.available)
  {
    MenuEntry(
      e.id,
      if patch.itemName.Some? then patch.itemName else e.itemName,
      if patch.description.Some? then patch.description else e.description,
      if patch.price.Some? then patch.price else e.price,
      if patch.image.Some? then patch.image else e.image,
      if patch.available.Some? then patch.available.value else e.available)
  }

  /** An entry updated with its own fields is unchanged. */
  lemma AssignOwnFieldsIdentity(e: MenuEntry)
    ensures AssignEntry(e, EntryFields(e.itemName, e.description, e.price, e.image, Some(e.available))) == e
  {
  }

  /** The truthy-only field assignments of a profile update. */
  function ApplyTruthy(v: Vendor, f: ProfileFields): (r: Vendor)
    ensures r.name == (if Truthy(f.name) then f.name.value else v.name)
    ensures r.email == (if Truthy(f.email) then f.email.value else v.email)
    ensures r.address == (if Truthy(f.address) then f.address else v.address)
    ensures r.contactNumber == (if Truthy(f.contactNumber) then f.contactNumber else v.contactNumber)
    ensures r.cuisineType == (if Truthy(f.cuisineType) then f.cuisineType else v.cuisineType)
    ensures r.id == v.id && r.passwordHash == v.passwordHash && r.menu == v.menu && r.role == v.role
  {
    v.(name := OrDefault(f.name, v.name),
       email := OrDefault(f.email, v.email),
       address := if Truthy(f.address) then f.address else v.address,
       contactNumber := if Truthy(f.contactNumber) then f.contactNumber else v.contactNumber,
       cuisineType := if Truthy(f.cuisineType) then f.cuisineType else v.cuisineType)
  }

  /** An update that supplies nothing truthy changes nothing. */
  lemma EmptyUpdateIsIdentity(v: Vendor, f: ProfileFields)
    requires !Truthy(f.name) && !Truthy(f.email) && !Truthy(f.address)
    requires !Truthy(f.contactNumber) && !Truthy(f.cuisineType)
    ensures ApplyTruthy(v, f) == v
  {
  }

  /** Applying the same update twice is applying it once. */
  lemma ApplyTruthyIdempotent(v: Vendor, f: ProfileFields)
    ensures ApplyTruthy(ApplyTruthy(v, f), f) == ApplyTruthy(v, f)
  {
  }

  /** No two vendors share an id. */
  ghost predicate UniqueIds(vs: seq<Vendor>)
  {
    forall i, j :: 0 <= i < j < |vs| ==> vs[i].id != vs[j].id
  }

  class VendorStore {
    var vendors: seq<Vendor>

    ghost predicate Valid()
      reads this
    {
      UniqueEmails(vendors) && UniqueIds(vendors)
    }

    constructor ()
      ensures Valid() && vendors == []
    {
      vendors := [];
    }

    /**
     * POST /api/vendor/register: 400 when the email is taken, 500 when the
     * document fails validation, otherwise the vendor is appended. The
     * unique email index is kept.
     */
    method Register(req: Registration, hash: string -> string, freshId: Id) returns (r: Result<Vendor>)
      requires Valid() && IndexOfId(vendors, freshId) == -1
      modifies this
      ensures Valid()
      ensures IndexOfEmail(old(vendors), req.email) != -1 ==> r == Err(400, "Email already exists") && vendors == old(vendors)
      ensures IndexOfEmail(old(vendors), req.email) == -1 ==>
                && r == Validate(freshId, VendorDraft(req.name, req.email, hash(req.password), req.address, req.contactNumber, req.cuisineType))
                && (r.Ok? ==> vendors == old(vendors) + [r.value])
                && (r.Err? ==> vendors == old(vendors))
    {
      if IndexOfEmail(vendors, req.email) != -1 {
        return Err(400, "Email already exists");
      }
      r := Validate(freshId, VendorDraft(req.name, req.email, hash(req.password), req.address, req.contactNumber, req.cuisineType));
      if r.Ok? {
        vendors := vendors + [r.value];
      }
    }

    /** POST /api/vendor/login: 400 for an unknown email or a wrong password; otherwise the signed claims. */
    function Login(email: string, password: string, matches: (string, string) -> bool): (r: Result<TokenClaims>)
      reads this
      ensures IndexOfEmail(vendors, email) == -1 ==> r == Err(400, "Vendor not found")
      ensures IndexOfEmail(vendors, email) != -1 ==>
                var v := vendors[IndexOfEmail(vendors, email)];
                && (!matches(password, v.passwordHash) ==> r == Err(400, "Invalid credentials"))
                && (matches(password, v.passwordHash) ==> r == Ok(TokenClaims(v.id, Or(v.role, DefaultRole))))
    {
      var i := IndexOfEmail(vendors, email);
      if i == -1 then Err(400, "Vendor not found")
      else
        var v := vendors[i];
        if !matches(password, v.passwordHash) then Err(400, "Invalid credentials")
        else Ok(TokenClaims(v.id, Or(v.role, DefaultRole)))
    }

    /** `Vendor.find()` mapped through the public projection, in stored order. */
    function Listing(): (r: seq<PublicVendor>)
      reads this
      ensures |r| == |vendors|
      ensures forall i :: 0 <= i < |r| ==> r[i] == PublicView(vendors[i])
    {
      seq(|vendors|, i requires 0 <= i < |vendors| reads this => PublicView(vendors[i]))
    }

    /** The vendor's embedded menu, or 404. */
    function MenuOf(vendorId: Id): (r: Result<seq<MenuEntry>>)
      reads this
      ensures IndexOfId(vendors, vendorId) == -1 <==> r == Err(404, "Vendor not found")
      ensures r.Ok? <==> IndexOfId(vendors, vendorId) != -1
      ensures r.Ok? ==> r.value == vendors[IndexOfId(vendors, vendorId)].menu
    {
      var i := IndexOfId(vendors, vendorId);
      if i == -1 then Err(404, "Vendor not found") else Ok(vendors[i].menu)
    }

    /** `vendor.menu.push(...)` then save: exactly one entry is appended. */
    method PushEntry(vendorId: Id, f: EntryFields, freshEntryId: Id) returns (r: Result<seq<MenuEntry>>)
      requires Valid()
      modifies this
      ensures Valid()
      ensures var i := IndexOfId(old(vendors), vendorId);
              && (i == -1 ==> r == Err(404, "Vendor not found") && vendors == old(vendors))
              && (i >= 0 ==> && r == Ok(old(vendors)[i].menu + [NewEntry(freshEntryId, f)])
                             && vendors == old(vendors)[i := old(vendors)[i].(menu := r.value)])
    {
      var i := IndexOfId(vendors, vendorId);
      if i == -1 {
        return Err(404, "Vendor not found");
      }
      var menu := vendors[i].menu + [NewEntry(freshEntryId, f)];
      vendors := vendors[i := vendors[i].(menu := menu)];
      r := Ok(menu);
    }

    /** `Object.assign` on the entry with the id, then save; only that entry changes. */
    method UpdateEntry(vendorId: Id, itemId: Id, patch: EntryFields) returns (r: Result<seq<MenuEntry>>)
      requires Valid()
      modifies this
      ensures Valid()
      ensures var i := IndexOfId(old(vendors), vendorId);
              && (i == -1 ==> r == Err(404, "Vendor not found") && vendors == old(vendors))
              && (i >= 0 && IndexOfEntry(old(vendors)[i].menu, itemId) == -1 ==>
                    r == Err(404, "Menu item not found") && vendors == old(vendors))
              && (i >= 0 && IndexOfEntry(old(vendors)[i].menu, itemId) >= 0 ==>
                    var k := IndexOfEntry(old(vendors)[i].menu, itemId);
                    && r == Ok(old(vendors)[i].menu[k := AssignEntry(old(vendors)[i].menu[k], patch)])
                    && vendors == old(vendors)[i := old(vendors)[i].(menu := r.value)])
    {
      var i := IndexOfId(vendors, vendorId);
      if i == -1 {
        return Err(404, "Vendor not found");
      }
      var k := IndexOfEntry(vendors[i].menu, itemId);
      if k == -1 {
        return Err(404, "Menu item not found");
      }
      var menu := vendors[i].menu[k := AssignEntry(vendors[i].menu[k], patch)];
      vendors := vendors[i := vendors[i].(menu := menu)];
      r := Ok(menu);
    }

    /** `item.deleteOne()` then save: the entry with the id is removed, the rest keep their order. */
    method DeleteEntry(vendorId: Id, itemId: Id) returns (r: Result<seq<MenuEntry>>)
      requires Valid()
      modifies this
      ensures Valid()
      ensures var i := IndexOfId(old(vendors), vendorId);
              && (i == -1 ==> r == Err(404, "Vendor not found") && vendors == old(vendors))
              && (i >= 0 && IndexOfEntry(old(vendors)[i].menu, itemId) == -1 ==>
                    r == Err(404, "Menu item not found") && vendors == old(vendors))
              && (i >= 0 && IndexOfEntry(old(vendors)[i].menu, itemId) >= 0 ==>
                    && r == Ok(RemoveAt(old(vendors)[i].menu, IndexOfEntry(old(vendors)[i].menu, itemId)))
                    && vendors == old(vendors)[i := old(vendors)[i].(menu := r.value)])
    {
      var i := IndexOfId(vendors, vendorId);
      if i == -1 {
        return Err(404, "Vendor not found");
      }
      var k := IndexOfEntry(vendors[i].menu, itemId);
      if k == -1 {
        return Err(404, "Menu item not found");
      }
      var menu := RemoveAt(vendors[i].menu, k);
      vendors := vendors[i := vendors[i].(menu := menu)];
      r := Ok(menu);
    }

    /**
     * The truthy-only profile update, then save. A new email held by another
     * vendor violates the unique index and the save fails with 500.
     */
    method UpdateProfile(vendorId: Id, f: ProfileFields) returns (r: Result<Vendor>)
      requires Valid()
      modifies this
      ensures Valid()
      ensures var i := IndexOfId(old(vendors), vendorId);
              && (i == -1 ==> r == Err(404, "Vendor not found") && vendors == old(vendors))
              && (i >= 0 ==>
                    var u := ApplyTruthy(old(vendors)[i], f);
                    var clash := exists j :: 0 <= j < |old(vendors)| && j != i && old(vendors)[j].email == u.email;
                    && (clash ==> r == Err(500, "Duplicate key") && vendors == old(vendors))
                    && (!clash ==> r == Ok(u) && vendors == old(vendors)[i := u]))
    {
      var i := IndexOfId(vendors, vendorId);
      if i == -1 {
        return Err(404, "Vendor not found");
      }
      var u := ApplyTruthy(vendors[i], f);
      var j := IndexOfEmail(vendors, u.email);
      if j != -1 && j != i {
        return Err(500, "Duplicate key");
      }
      if j == i {
        assert forall k :: 0 <= k < |vendors| && k != i ==> vendors[k].email != u.email;
      }
      vendors := vendors[i := u];
      r := Ok(u);
    }

    /** `Vendor.findByIdAndDelete`: 404, or the vendor is removed and returned. */
    method Remove(vendorId: Id) returns (r: Result<Vendor>)
      requires Valid()
      modifies this
      ensures Valid()
      ensures var i := IndexOfId(old(vendors), vendorId);
              && (i == -1 ==> r == Err(404, "Vendor not found") && vendors == old(vendors))
              && (i >= 0 ==> r == Ok(old(vendors)[i]) && vendors == RemoveAt(old(vendors), i))
    {
      var i := IndexOfId(vendors, vendorId);
      if i == -1 {
        return Err(404, "Vendor not found");
      }
      r := Ok(vendors[i]);
      vendors := RemoveAt(vendors, i);
    }
  }

  /** POST /api/vendor/register. */
  method RegisterRoute(store: VendorStore, req: Registration, hash: string -> string, freshId: Id)
    returns (r: Result<Vendor>)
    requires store.Valid() && IndexOfId(store.vendors, freshId) == -1
    modifies store
    ensures store.Valid()
    ensures IndexOfEmail(old(store.vendors), req.email) != -1 ==> r == Err(400, "Email already exists") && store.vendors == old(store.vendors)
    ensures IndexOfEmail(old(store.vendors), req.email) == -1 ==>
              && r == Validate(freshId, VendorDraft(req.name, req.email, hash(req.password), req.address, req.contactNumber, req.cuisineType))
              && (r.Ok? ==> store.vendors == old(store.vendors) + [r.value])
              && (r.Err? ==> store.vendors == old(store.vendors))
    ensures r.Ok? <==> IndexOfEmail(old(store.vendors), req.email) == -1 && Present(req.name) && Present(req.email)
                       && Present(hash(req.password))
    ensures r.Ok? ==> r.value.role == DefaultRole
  {
    r := store.Register(req, hash, freshId);
  }

  /** POST /api/vendor/menu: 403 without an acting vendor, then the push on that vendor. */
  method AddMenuEntry(store: VendorStore, actor: Option<Id>, f: EntryFields, freshEntryId: Id)
    returns (r: Result<seq<MenuEntry>>)
    requires store.Valid()
    modifies store
    ensures store.Valid()
    ensures actor.None? ==> r == Err(403, "Access denied") && store.vendors == old(store.vendors)
    ensures actor.Some? ==>
              var i := IndexOfId(old(store.vendors), actor.value);
              && (i == -1 ==> r == Err(404, "Vendor not found") && store.vendors == old(store.vendors))
              && (i >= 0 ==> && r == Ok(old(store.vendors)[i].menu + [NewEntry(freshEntryId, f)])
                             && store.vendors == old(store.vendors)[i := old(store.vendors)[i].(menu := r.value)])
  {
    if actor.None? {
      return Err(403, "Access denied");
    }
    r := store.PushEntry(actor.value, f, freshEntryId);
  }

  /** GET /api/vendor/menu: 403 without an acting vendor, 404, or the vendor's own menu. */
  function OwnMenu(store: VendorStore, actor: Option<Id>): (r: Result<seq<MenuEntry>>)
    reads store
    ensures actor.None? ==> r == Err(403, "Access denied")
    ensures actor.Some? && IndexOfId(store.vendors, actor.value) == -1 ==> r == Err(404, "Vendor not found")
    ensures r.Ok? <==> actor.Some? && IndexOfId(store.vendors, actor.value) != -1
    ensures r.Ok? ==> actor.Some? && r.value == store.vendors[IndexOfId(store.vendors, actor.value)].menu
  {
    if actor.None? then Err(403, "Access denied") else store.MenuOf(actor.value)
  }

  /** PUT /api/vendor/menu/:itemId on the acting vendor's menu. */
  method UpdateMenuEntry(store: VendorStore, actor: Option<Id>, itemId: Id, patch: EntryFields)
    returns (r: Result<seq<MenuEntry>>)
    requires store.Valid()
    modifies store
    ensures store.Valid()
    ensures actor.None? ==> r == Err(403, "Access denied") && store.vendors == old(store.vendors)
    ensures actor.Some? ==>
              var i := IndexOfId(old(store.vendors), actor.value);
              && (i == -1 ==> r == Err(404, "Vendor not found") && store.vendors == old(store.vendors))
              && (i >= 0 && IndexOfEntry(old(store.vendors)[i].menu, itemId) == -1 ==>
                    r == Err(404, "Menu item not found") && store.vendors == old(store.vendors))
              && (i >= 0 && IndexOfEntry(old(store.vendors)[i].menu, itemId) >= 0 ==>
                    var k := IndexOfEntry(old(store.vendors)[i].menu, itemId);
                    && r == Ok(old(store.vendors)[i].menu[k := AssignEntry(old(store.vendors)[i].menu[k], patch)])
                    && store.vendors == old(store.vendors)[i := old(store.vendors)[i].(menu := r.value)])
  {
    if actor.None? {
      return Err(403, "Access denied");
    }
    r := store.UpdateEntry(actor.value, itemId, patch);
  }

  /** DELETE /api/vendor/menu/:itemId on the acting vendor's menu. */
  method DeleteMenuEntry(store: VendorStore, actor: Option<Id>, itemId: Id)
    returns (r: Result<seq<MenuEntry>>)
    requires store.Valid()
    modifies store
    ensures store.Valid()
    ensures actor.None? ==> r == Err(403, "Access denied") && store.vendors == old(store.vendors)
    ensures actor.Some? ==>
              var i := IndexOfId(old(store.vendors), actor.value);
              && (i == -1 ==> r == Err(404, "Vendor not found") && store.vendors == old(store.vendors))
              && (i >= 0 && IndexOfEntry(old(store.vendors)[i].menu, itemId) == -1 ==>
                    r == Err(404, "Menu item not found") && store.vendors == old(store.vendors))
              && (i >= 0 && IndexOfEntry(old(store.vendors)[i].menu, itemId) >= 0 ==>
                    && r == Ok(RemoveAt(old(store.vendors)[i].menu, IndexOfEntry(old(store.vendors)[i].menu, itemId)))
                    && store.vendors == old(store.vendors)[i := old(store.vendors)[i].(menu := r.value)])
  {
    if actor.None? {
      return Err(403, "Access denied");
    }
    r := store.DeleteEntry(actor.value, itemId);
  }

  /** Whether the acting vendor may change the vendor named in the path. */
  predicate Owns(actor: Option<Id>, vendorId: Id)
  {
    actor.Some? && actor.value == vendorId
  }

  /** PUT /api/vendor/:vendorId: 403 unless the acting vendor is that vendor. */
  method UpdateVendor(store: VendorStore, actor: Option<Id>, vendorId: Id, f: ProfileFields)
    returns (r: Result<Vendor>)
    requires store.Valid()
    modifies store
    ensures store.Valid()
    ensures !Owns(actor, vendorId) ==> r == Err(403, "Access denied") && store.vendors == old(store.vendors)
    ensures Owns(actor, vendorId) ==>
              var i := IndexOfId(old(store.vendors), vendorId);
              && (i == -1 ==> r == Err(404, "Vendor not found") && store.vendors == old(store.vendors))
              && (i >= 0 ==>
                    var u := ApplyTruthy(old(store.vendors)[i], f);
                    var clash := exists j :: 0 <= j < |old(store.vendors)| && j != i && old(store.vendors)[j].email == u.email;
                    && (clash ==> r == Err(500, "Duplicate key") && store.vendors == old(store.vendors))
                    && (!clash ==> r == Ok(u) && store.vendors == old(store.vendors)[i := u]))
  {
    if !Owns(actor, vendorId) {
      return Err(403, "Access denied");
    }
    r := store.UpdateProfile(vendorId, f);
  }

  /** DELETE /api/vendor/:vendorId: 403 unless the acting vendor is that vendor. */
  method DeleteVendor(store: VendorStore, actor: Option<Id>, vendorId: Id) returns (r: Result<Vendor>)
    requires store.Valid()
    modifies store
    ensures store.Valid()
    ensures !Owns(actor, vendorId) ==> r == Err(403, "Access denied") && store.vendors == old(store.vendors)
    ensures Owns(actor, vendorId) ==>
              var i := IndexOfId(old(store.vendors), vendorId);
              && (i == -1 ==> r == Err(404, "Vendor not found") && store.vendors == old(store.vendors))
              && (i >= 0 ==> r == Ok(old(store.vendors)[i]) && store.vendors == RemoveAt(old(store.vendors), i))
  {
    if !Owns(actor, vendorId) {
      return Err(403, "Access denied");
    }
    r := store.Remove(vendorId);
  }
}
