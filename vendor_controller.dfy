/**
 * The vendor controller: the same operations as the vendor routes, over the
 * same collection, but the acting vendor is always present and is checked
 * against the vendor id in the path. Login signs the stored role as is.
 */
module VendorController {
  import opened Common
  import opened VendorModel
  import opened Lists
  import opened VendorRoutes

  /** registerVendor: 400 on a taken email, otherwise the validated vendor is appended. */
  method RegisterVendor(store: VendorStore, req: Registration, hash: string -> string, freshId: Id)
    returns (r: Result<Vendor>)
    requires store.Valid() && IndexOfId(store.vendors, freshId) == -1
    modifies store
    ensures store.Valid()
    ensures IndexOfEmail(old(store.vendors), req.email) != -1 ==> r == Err(400, "Email already exists") && store.vendors == old(store.vendors)
    ensures IndexOfEmail(old(store.vendors), req.email) == -1 ==>
              && r == Validate(freshId, VendorDraft(req.name, req.email, hash(req.password), req.address, req.contactNumber, req.cuisineType))
              && (r.Ok? ==> store.vendors == old(store.vendors) + [r.value])
              && (r.Err? ==> store.vendors == old(store.vendors))
    ensures r.Ok? <==> IndexOfEmail(old(store.vendors), req.email) == -1 && Present(req.name) && Present(req.email)
                       && Present(hash(req.password))
    ensures r.Ok? ==> r.value.role == DefaultRole
  {
    r := store.Register(req, hash, freshId);
  }

  /** loginVendor: 400 for an unknown email or a wrong password; the token carries the stored role. */
  function LoginVendor(store: VendorStore, email: string, password: string, matches: (string, string) -> bool)
    : (r: Result<TokenClaims>)
    reads store
    ensures IndexOfEmail(store.vendors, email) == -1 ==> r == Err(400, "Vendor not found")
    ensures IndexOfEmail(store.vendors, email) != -1 ==>
              var v := store.vendors[IndexOfEmail(store.vendors, email)];
              && (!matches(password, v.passwordHash) ==> r == Err(400, "Invalid credentials"))
              && (matches(password, v.passwordHash) ==> r == Ok(TokenClaims(v.id, v.role)))
  {
    var i := IndexOfEmail(store.vendors, email);
    if i == -1 then Err(400, "Vendor not found")
    else
      var v := store.vendors[i];
      if !matches(password, v.passwordHash) then Err(400, "Invalid credentials")
      else Ok(TokenClaims(v.id, v.role))
  }

  /** For a vendor with a non-empty role, both logins sign the same claims. */
  lemma LoginsAgree(store: VendorStore, email: string, password: string, matches: (string, string) -> bool)
    requires forall j :: 0 <= j < |store.vendors| ==> store.vendors[j].role != ""
    ensures LoginVendor(store, email, password, matches) == store.Login(email, password, matches)
  {
  }

  /** addMenuItem: 403 for another vendor, 404 for a missing vendor, otherwise one entry appended. */
  method AddMenuItem(store: VendorStore, actor: Id, vendorId: Id, f: EntryFields, freshEntryId: Id)
    returns (r: Result<seq<MenuEntry>>)
    requires store.Valid()
    modifies store
    ensures store.Valid()
    ensures actor != vendorId ==> r == Err(403, "Access denied") && store.vendors == old(store.vendors)
    ensures actor == vendorId ==>
              var i := IndexOfId(old(store.vendors), vendorId);
              && (i == -1 ==> r == Err(404, "Vendor not found") && store.vendors == old(store.vendors))
              && (i >= 0 ==> && r == Ok(old(store.vendors)[i].menu + [NewEntry(freshEntryId, f)])
                             && store.vendors == old(store.vendors)[i := old(store.vendors)[i].(menu := r.value)])
  {
    if actor != vendorId {
      return Err(403, "Access denied");
    }
    r := store.PushEntry(vendorId, f, freshEntryId);
  }

  /** getVendorMenu: 404 or the vendor's menu; no ownership check. */
  function GetVendorMenu(store: VendorStore, vendorId: Id): (r: Result<seq<MenuEntry>>)
    reads store
    ensures r.Err? <==> forall j :: 0 <= j < |store.vendors| ==> store.vendors[j].id != vendorId
    ensures r.Err? ==> r == Err(404, "Vendor not found")
    ensures r.Ok? ==> exists j :: 0 <= j < |store.vendors| && store.vendors[j].id == vendorId && store.vendors[j].menu == r.value
  {
    store.MenuOf(vendorId)
  }

  /** updateVendor: 403 for another vendor, then 404, then the truthy-only update. */
  method UpdateVendor(store: VendorStore, actor: Id, vendorId: Id, f: ProfileFields) returns (r: Result<Vendor>)
    requires store.Valid()
    modifies store
    ensures store.Valid()
    ensures actor != vendorId ==> r == Err(403, "Access denied") && store.vendors == old(store.vendors)
    ensures actor == vendorId ==>
              var i := IndexOfId(old(store.vendors), vendorId);
              && (i == -1 ==> r == Err(404, "Vendor not found") && store.vendors == old(store.vendors))
              && (i >= 0 ==>
                    var u := ApplyTruthy(old(store.vendors)[i], f);
                    var clash := exists j :: 0 <= j < |old(store.vendors)| && j != i && old(store.vendors)[j].email == u.email;
                    && (clash ==> r == Err(500, "Duplicate key") && store.vendors == old(store.vendors))
                    && (!clash ==> r == Ok(u) && store.vendors == old(store.vendors)[i := u]))
  {
    if actor != vendorId {
      return Err(403, "Access denied");
    }
    r := store.UpdateProfile(vendorId, f);
  }

  /** deleteVendor: 403 for another vendor, 404 when absent, otherwise removed. */
  method DeleteVendor(store: VendorStore, actor: Id, vendorId: Id) returns (r: Result<Vendor>)
    requires store.Valid()
    modifies store
    ensures store.Valid()
    ensures actor != vendorId ==> r == Err(403, "Access denied") && store.vendors == old(store.vendors)
    ensures actor == vendorId ==>
              var i := IndexOfId(old(store.vendors), vendorId);
              && (i == -1 ==> r == Err(404, "Vendor not found") && store.vendors == old(store.vendors))
              && (i >= 0 ==> r == Ok(old(store.vendors)[i]) && store.vendors == RemoveAt(old(store.vendors), i))
  {
    if actor != vendorId {
      return Err(403, "Access denied");
    }
    r := store.Remove(vendorId);
  }
}
