/**
 * The customer routes: registration and login, a vendor's menu, the
 * truthy-only profile update, the customer's orders and reorder. The acting
 * customer is a parameter; hashing and password comparison stand for
 * bcrypt.
 */
module CustomerRoutes {
  import opened Common
  import opened CustomerModel
  import opened Lists
  import OrderModel
  import OL = OrderLifecycle
  import OrderRoutes
  import VendorModel
  import VendorRoutes

  /** The body of POST /api/customer/register; a missing address is "". */
  datatype Registration = Registration(
    name: string,
    email: string,
    password: string,
    address: string,
    contactNumber: Option<string>)

  /** The fields a profile update may supply; absent is None. */
  datatype ProfileFields = ProfileFields(
    name: Option<string>,
    email: Option<string>,
    addresses: Option<seq<string>>,
    contactNumber: Option<string>)

  /** The claims a login or registration signs into its token. */
  datatype TokenClaims = TokenClaims(id: Id, role: string)

  function IndexOfId(cs: seq<Customer>, id: Id): (i: int)
    ensures -1 <= i < |cs|
    ensures i >= 0 ==> cs[i].id == id
    ensures i == -1 <==> forall j :: 0 <= j < |cs| ==> cs[j].id != id
  {
    FirstIndex(cs, (c: Customer) => c.id == id)
  }

  function IndexOfEmail(cs: seq<Customer>, email: string): (i: int)
    ensures -1 <= i < |cs|
    ensures i >= 0 ==> cs[i].email == email
    ensures i == -1 <==> forall j :: 0 <= j < |cs| ==> cs[j].email != email
  {
    FirstIndex(cs, (c: Customer) => c.email == email)
  }

  /**
   * The truthy-only assignments of a profile update. Any supplied address
   * list replaces the old one wholesale, an empty list included, since an
   * array is always truthy.
   */
  function ApplyTruthy(c: Customer, f: ProfileFields): (r: Customer)
    ensures r.name == (if Truthy(f.name) then f.name.value else c.name)
    ensures r.email == (if Truthy(f.email) then f.email.value else c.email)
    ensures r.addresses == (if f.addresses.Some? then f.addresses.value else c.addresses)
    ensures r.contactNumber == (if Truthy(f.contactNumber) then f.contactNumber else c.contactNumber)
    ensures r.id == c.id && r.passwordHash == c.passwordHash && r.favorites == c.favorites && r.role == c.role
  {
    c.(name := OrDefault(f.name, c.name),
       email := OrDefault(f.email, c.email),
       addresses := if f.addresses.Some? then f.addresses.value else c.addresses,
       contactNumber := if Truthy(f.contactNumber) then f.contactNumber else c.contactNumber)
  }

  /** Supplying an empty address list clears the addresses. */
  lemma EmptyListClearsAddresses(c: Customer, f: ProfileFields)
    requires f.addresses == Some([])
    ensures ApplyTruthy(c, f).addresses == []
  {
  }

  /** An update that supplies nothing leaves the customer as it was. */
  lemma NothingSuppliedIsIdentity(c: Customer, f: ProfileFields)
    requires !Truthy(f.name) && !Truthy(f.email) && f.addresses.None? && !Truthy(f.contactNumber)
    ensures ApplyTruthy(c, f) == c
  {
  }

  ghost predicate UniqueIds(cs: seq<Customer>)
  {
    forall i, j :: 0 <= i < j < |cs| ==> cs[i].id != cs[j].id
  }

  class CustomerStore {
    var customers: seq<Customer>

    ghost predicate Valid()
      reads this
    {
      UniqueEmails(customers) && UniqueIds(customers)
    }

    constructor ()
      ensures Valid() && customers == []
    {
      customers := [];
    }

    /**
     * POST /api/customer/register: 400 when the email is taken; otherwise the
     * validated customer, whose address list is exactly the one address
     * sent, is appended.
     */
    method Register(req: Registration, hash: string -> string, freshId: Id) returns (r: Result<Customer>)
      requires Valid() && IndexOfId(customers, freshId) == -1
      modifies this
      ensures Valid()
      ensures IndexOfEmail(old(customers), req.email) != -1 ==> r == Err(400, "Email already exists") && customers == old(customers)
      ensures IndexOfEmail(old(customers), req.email) == -1 ==>
                && r == Validate(freshId, CustomerDraft(req.name, req.email, hash(req.password), req.contactNumber, [req.address]))
                && (r.Ok? ==> customers == old(customers) + [r.value] && r.value.addresses == [req.address])
                && (r.Err? ==> customers == old(customers))
    {
      if IndexOfEmail(customers, req.email) != -1 {
        return Err(400, "Email already exists");
      }
      r := Validate(freshId, CustomerDraft(req.name, req.email, hash(req.password), req.contactNumber, [req.address]));
      if r.Ok? {
        customers := customers + [r.value];
      }
    }

    /** POST /api/customer/login: 400 for an unknown email or a wrong password. */
    function Login(email: string, password: string, matches: (string, string) -> bool): (r: Result<TokenClaims>)
      reads this
      ensures IndexOfEmail(customers, email) == -1 ==> r == Err(400, "Customer not found")
      ensures IndexOfEmail(customers, email) != -1 ==>
                var c := customers[IndexOfEmail(customers, email)];
                && (!matches(password, c.passwordHash) ==> r == Err(400, "Invalid credentials"))
                && (matches(password, c.passwordHash) ==> r == Ok(TokenClaims(c.id, DefaultRole)))
    {
      var i := IndexOfEmail(customers, email);
      if i == -1 then Err(400, "Customer not found")
      else
        var c := customers[i];
        if !matches(password, c.passwordHash) then Err(400, "Invalid credentials")
        else Ok(TokenClaims(c.id, DefaultRole))
    }

    /**
     * PUT /api/customer/profile on the acting customer, whose document the
     * middleware has loaded. A new email held by another customer violates
     * the unique index and the save fails with 500.
     */
    method UpdateProfile(customerId: Id, f: ProfileFields) returns (r: Result<Customer>)
      requires Valid() && IndexOfId(customers, customerId) != -1
      modifies this
      ensures Valid()
      ensures var i := IndexOfId(old(customers), customerId);
              var u := ApplyTruthy(old(customers)[i], f);
              var clash := exists j :: 0 <= j < |old(customers)| && j != i && old(customers)[j].email == u.email;
              && (clash ==> r == Err(500, "Duplicate key") && customers == old(customers))
              && (!clash ==> r == Ok(u) && customers == old(customers)[i := u])
    {
      var i := IndexOfId(customers, customerId);
      var u := ApplyTruthy(customers[i], f);
      var j := IndexOfEmail(customers, u.email);
      if j != -1 && j != i {
        return Err(500, "Duplicate key");
      }
      if j == i {
        assert forall k :: 0 <= k < |customers| && k != i ==> customers[k].email != u.email;
      }
      customers := customers[i := u];
      r := Ok(u);
    }
  }

  /** GET /api/customer/vendor/:vendorId/menu: 404 or the vendor's embedded menu. */
  function VendorMenu(vendors: VendorRoutes.VendorStore, vendorId: Id): (r: Result<seq<VendorModel.MenuEntry>>)
    reads vendors
    ensures r.Err? <==> forall j :: 0 <= j < |vendors.vendors| ==> vendors.vendors[j].id != vendorId
    ensures r.Err? ==> r == Err(404, "Vendor not found")
    ensures r.Ok? ==> exists j :: 0 <= j < |vendors.vendors| && vendors.vendors[j].id == vendorId && vendors.vendors[j].menu == r.value
  {
    vendors.MenuOf(vendorId)
  }

  /** GET /api/customer/orders: exactly the acting customer's orders, newest first. */
  function Orders(store: OrderRoutes.OrderStore, customer: Id): (r: seq<OrderModel.Order>)
    reads store
    requires store.Valid()
    ensures forall o :: o in r <==> o in store.orders.Values && o.customer == customer
    ensures forall i, j :: 0 <= i < j < |r| ==> r[i].createdAt > r[j].createdAt
  {
    store.List(OL.ByCustomer(customer))
  }

  /**
   * POST /api/customer/reorder/:orderId: 404 for a missing order; otherwise
   * the copied order lacks the required total and its save always fails,
   * so the collection never changes. Any customer may reorder any order.
   */
  method Reorder(store: OrderRoutes.OrderStore, customer: Id, orderId: Id, freshId: Id)
    returns (r: Result<OrderModel.Order>)
    requires store.Valid() && freshId !in store.orders
    modifies store
    ensures store.Valid()
    ensures orderId !in old(store.orders) ==> r == Err(404, "Order not found")
    ensures orderId in old(store.orders) ==> r == Err(500, "Order validation failed")
    ensures store.orders == old(store.orders) && store.log == old(store.log)
  {
    var found := store.Find(orderId);
    if found.None? {
      return Err(404, "Order not found");
    }
    OL.ReorderAlwaysRejected(found.value, customer, freshId, store.clock);
    r := store.Insert(OL.ReorderDraft(found.value, customer), freshId);
  }
}
