/**
 * The profile page (Profile.js): editing the address list of the form,
 * the body it saves, which user kind fetches orders, and when the review
 * form is offered.
 */
module Profile {
  import opened Common
  import opened OrderModel
  import Lists
  import CustomerModel
  import CustomerRoutes
  import ReviewRoutes

  /** The address list of the edit form (absent until loaded) and the new-address input. */
  datatype Editor = Editor(addresses: Option<seq<string>>, input: string)

  /** `form.addresses || []`. */
  function Listed(e: Editor): seq<string>
  {
    if e.addresses.Some? then e.addresses.value else []
  }

  /**
   * `handleAddAddress`: an empty input is ignored; otherwise the input is
   * appended to the list and cleared.
   */
  function AddAddress(e: Editor): (r: Editor)
    ensures e.input == "" ==> r == e
    ensures e.input != "" ==> r.addresses == Some(Listed(e) + [e.input]) && r.input == ""
  {
    if e.input == "" then e
    else Editor(Some(Listed(e) + [e.input]), "")
  }

  /**
   * `handleRemoveAddress(index)`: the filter that drops the entry at `index`.
   * It reads `form.addresses`, so the list must be loaded; an index outside
   * the list removes nothing.
   */
  function RemoveAddress(e: Editor, index: int): (r: Editor)
    requires e.addresses.Some?
    ensures r.input == e.input && r.addresses.Some?
    ensures 0 <= index < |e.addresses.value| ==>
              r.addresses.value == Lists.RemoveAt(e.addresses.value, index)
    ensures !(0 <= index < |e.addresses.value|) ==> r.addresses == e.addresses
  {
    var a := e.addresses.value;
    if 0 <= index < |a| then e.(addresses := Some(a[..index] + a[index + 1..]))
    else e
  }

  /** Removing the entry just added gives the list back and leaves the input cleared. */
  lemma AddThenRemoveRoundTrip(e: Editor)
    requires e.input != ""
    ensures var added := AddAddress(e);
            RemoveAddress(added, |Listed(e)|) == Editor(Some(Listed(e)), "")
  {
    var a := Listed(e) + [e.input];
    assert a[..|Listed(e)|] + a[|Listed(e)| + 1..] == Listed(e);
  }

  /** Removing an entry takes exactly that address out of the multiset of addresses. */
  lemma RemoveTakesOne(e: Editor, index: int)
    requires e.addresses.Some? && 0 <= index < |e.addresses.value|
    ensures multiset(RemoveAddress(e, index).addresses.value) + multiset{e.addresses.value[index]}
            == multiset(e.addresses.value)
  {
    Lists.RemoveAtMultiset(e.addresses.value, index);
  }

  /** The address list `updateProfile` sends: always present, `[]` when absent. */
  function SavedAddresses(e: Editor): (a: seq<string>)
    ensures e.addresses.Some? ==> a == e.addresses.value
    ensures e.addresses.None? ==> a == []
  {
    Listed(e)
  }

  /**
   * Since the body always carries an address list and the server replaces
   * the stored list with any list it receives, a save makes the stored
   * addresses exactly the form's, and a form without a list clears them.
   */
  lemma SaveReplacesAddresses(c: CustomerModel.Customer, e: Editor, f: CustomerRoutes.ProfileFields)
    requires f.addresses == Some(SavedAddresses(e))
    ensures CustomerRoutes.ApplyTruthy(c, f).addresses == Listed(e)
    ensures e.addresses.None? ==> CustomerRoutes.ApplyTruthy(c, f).addresses == []
  {
  }

  /** `user?.role === "vendor"`; without a stored user the page is a customer page. */
  predicate IsVendor(role: Option<string>)
  {
    role == Some("vendor")
  }

  /** `fetchOrders` requests the customer's orders only when the user is not a vendor. */
  function FetchesOrders(role: Option<string>): (b: bool)
    ensures b <==> !IsVendor(role)
    ensures role.None? ==> b
  {
    !(role.Some? && role.value == "vendor")
  }

  /** The review form's condition: a delivered order whose vendor is known. */
  predicate ReviewOffered(o: Order)
  {
    o.status == Delivered && o.vendor != ""
  }

  /**
   * The page lists the acting customer's own orders, so every order the form
   * is offered for passes the server's review gate.
   */
  lemma ReviewOfferedPassesGate(o: Order, user: Id)
    requires o.customer == user
    ensures ReviewOffered(o) ==> ReviewRoutes.ReviewGate(Some(o), user).Ok?
    ensures ReviewRoutes.ReviewGate(Some(o), user).Ok? ==> o.status == Delivered
  {
  }
}
