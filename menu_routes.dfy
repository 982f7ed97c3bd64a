/**
 * The menu routes over the Menu collection: add an item (creating the
 * vendor's menu on first use), read a vendor's menu, and update or delete a
 * single item found by id across all menus. A failed save answers
 * 500 "Server error".
 */
module MenuRoutes {
  import opened Common
  import opened MenuModel
  import opened Lists

  /** Whether a menu holds an item with the given id. */
  predicate HasItem(mn: Menu, itemId: Id)
  {
    exists k :: 0 <= k < |mn.items| && mn.items[k].id == itemId
  }

  /** `Menu.findOne({ vendor })`: the index of the first menu of the vendor, or -1. */
  function MenuOf(menus: seq<Menu>, vendor: Id): (m: int)
    ensures -1 <= m < |menus|
    ensures m >= 0 ==> menus[m].vendor == vendor && forall j :: 0 <= j < m ==> menus[j].vendor != vendor
    ensures m == -1 <==> forall j :: 0 <= j < |menus| ==> menus[j].vendor != vendor
  {
    FirstIndex(menus, (mn: Menu) => mn.vendor == vendor)
  }

  /**
   * `Menu.findOne({ "items._id": itemId })` followed by `findIndex` on its
   * items: the first menu holding the id and the item's position in it. The
   * menu found always holds the id, so the second 404 of the handlers never
   * fires and both are one None here.
   */
  function Locate(menus: seq<Menu>, itemId: Id): (loc: Option<(nat, nat)>)
    ensures loc.None? <==> forall m :: 0 <= m < |menus| ==> !HasItem(menus[m], itemId)
    ensures loc.Some? ==> && loc.value.0 < |menus| && HasItem(menus[loc.value.0], itemId)
                          && (forall m :: 0 <= m < loc.value.0 ==> !HasItem(menus[m], itemId))
                          && loc.value.1 < |menus[loc.value.0].items|
                          && menus[loc.value.0].items[loc.value.1].id == itemId
                          && forall k :: 0 <= k < loc.value.1 ==> menus[loc.value.0].items[k].id != itemId
  {
    var m := FirstIndex(menus, (mn: Menu) => HasItem(mn, itemId));
    if m == -1 then None
    else
      var k := FirstIndex(menus[m].items, (it: MenuItem) => it.id == itemId);
      assert k != -1 by {
        var w :| 0 <= w < |menus[m].items| && menus[m].items[w].id == itemId;
      }
      Some((m, k))
  }

  /** `{ ...old, ...patch }`: each field supplied by the patch wins, the others are kept. */
  function Merge(base: ItemFields, patch: ItemFields): (f: ItemFields)
    ensures patch.name.Some? ==> f.name == patch.name
    ensures patch.name.None? ==> f.name == base.name
    ensures patch.description.Some? ==> f.description == patch.description
    ensures patch.description.None? ==> f.description == base.description
    ensures patch.price.Some? ==> f.price == patch.price
    ensures patch.price.None? ==> f.price == base.price
    ensures patch.image.Some? ==> f.image == patch.image
    ensures patch.image.None? ==> f.image == base.image
    ensures patch.isAvailable.Some? ==> f.isAvailable == patch.isAvailable
    ensures patch.isAvailable.None? ==> f.isAvailable == base.isAvailable
  {
    ItemFields(
      if patch.name.Some? then patch.name else base.name,
      if patch.description.Some? then patch.description else base.description,
      if patch.price.Some? then patch.price else base.price,
      if patch.image.Some? then patch.image else base.image,
      if patch.isAvailable.Some? then patch.isAvailable else base.isAvailable)
  }

  /**
   * The item an update stores: the old item with the patch's fields over it,
   * validated again; the id never changes.
   */
  function UpdatedItem(current: MenuItem, patch: ItemFields): (r: Result<MenuItem>)
    ensures r.Ok? <==> (patch.name.None? && Present(current.name)) || (patch.name.Some? && Present(patch.name.value))
    ensures r.Ok? ==> && r.value.id == current.id
                      && r.value.name == (if patch.name.Some? then patch.name.value else current.name)
                      && r.value.description == (if patch.description.Some? then patch.description.value else current.description)
                      && r.value.price == (if patch.price.Some? then patch.price.value else current.price)
                      && r.value.image == (if patch.image.Some? then patch.image.value else current.image)
                      && r.value.isAvailable == (if patch.isAvailable.Some? then patch.isAvailable.value else current.isAvailable)
  {
    ValidateItem(current.id, Merge(FieldsOf(current), patch))
  }

  /** An empty patch leaves a stored item as it was. */
  lemma EmptyPatchKeepsItem(it: MenuItem)
    requires Present(it.name)
    ensures UpdatedItem(it, ItemFields(None, None, None, None, None)) == Ok(it)
  {
  }

  class MenuStore {
    var menus: seq<Menu>

    constructor ()
      ensures menus == []
    {
      menus := [];
    }

    /**
     * POST /api/menu/:vendorId. An unknown vendor is 404; an item failing
     * validation is 500; otherwise the item goes at the end of the vendor's
     * menu, which is created holding just that item if the vendor has none.
     * The response echoes the request body.
     */
    method AddItem(vendors: set<Id>, vendorId: Id, body: ItemFields, freshItemId: Id, freshMenuId: Id)
      returns (r: Result<ItemFields>)
      modifies this
      ensures vendorId !in vendors ==> r == Err(404, "Vendor not found") && menus == old(menus)
      ensures vendorId in vendors && !FieldsValid(body) ==> r == Err(500, "Server error") && menus == old(menus)
      ensures vendorId in vendors && FieldsValid(body) ==>
                var item := ValidateItem(freshItemId, body).value;
                var m := MenuOf(old(menus), vendorId);
                && r == Ok(body)
                && (m == -1 ==> menus == old(menus) + [Menu(freshMenuId, vendorId, [item])])
                && (m >= 0 ==> menus == old(menus)[m := old(menus)[m].(items := old(menus)[m].items + [item])])
    {
      if vendorId !in vendors {
        return Err(404, "Vendor not found");
      }
      var v := ValidateItem(freshItemId, body);
      if v.Err? {
        return Err(500, "Server error");
      }
      var m := MenuOf(menus, vendorId);
      if m == -1 {
        menus := menus + [Menu(freshMenuId, vendorId, [v.value])];
      } else {
        menus := menus[m := menus[m].(items := menus[m].items + [v.value])];
      }
      r := Ok(body);
    }

    /** GET /api/menu/:vendorId: the vendor's first menu, or 404. */
    function GetMenu(vendorId: Id): (r: Result<Menu>)
      reads this
      ensures r.Err? <==> forall j :: 0 <= j < |menus| ==> menus[j].vendor != vendorId
      ensures r.Err? ==> r == Err(404, "Menu not found")
      ensures r.Ok? ==> r.value in menus && r.value.vendor == vendorId
      ensures r.Ok? ==> r == Ok(menus[MenuOf(menus, vendorId)])
    {
      var m := MenuOf(menus, vendorId);
      if m == -1 then Err(404, "Menu not found") else Ok(menus[m])
    }

    /**
     * PUT /api/menu/item/:itemId: only the located item changes, to the
     * merged and revalidated item.
     */
    method UpdateItem(itemId: Id, patch: ItemFields) returns (r: Result<MenuItem>)
      modifies this
      ensures var loc := Locate(old(menus), itemId);
              && (loc.None? ==> r == Err(404, "Menu item not found") && menus == old(menus))
              && (loc.Some? ==>
                    var (m, k) := loc.value;
                    var u := UpdatedItem(old(menus)[m].items[k], patch);
                    && (u.Err? ==> r == Err(500, "Server error") && menus == old(menus))
                    && (u.Ok? ==> r == u && menus == old(menus)[m := old(menus)[m].(items := old(menus)[m].items[k := u.value])]))
    {
      var loc := Locate(menus, itemId);
      if loc.None? {
        return Err(404, "Menu item not found");
      }
      var (m, k) := loc.value;
      var u := UpdatedItem(menus[m].items[k], patch);
      if u.Err? {
        return Err(500, "Server error");
      }
      menus := menus[m := menus[m].(items := menus[m].items[k := u.value])];
      r := u;
    }

    /** DELETE /api/menu/item/:itemId: the located item is spliced out and returned. */
    method DeleteItem(itemId: Id) returns (r: Result<MenuItem>)
      modifies this
      ensures var loc := Locate(old(menus), itemId);
              && (loc.None? ==> r == Err(404, "Menu item not found") && menus == old(menus))
              && (loc.Some? ==>
                    var (m, k) := loc.value;
                    && r == Ok(old(menus)[m].items[k])
                    && menus == old(menus)[m := old(menus)[m].(items := RemoveAt(old(menus)[m].items, k))])
    {
      var loc := Locate(menus, itemId);
      if loc.None? {
        return Err(404, "Menu item not found");
      }
      var (m, k) := loc.value;
      r := Ok(menus[m].items[k]);
      menus := menus[m := menus[m].(items := RemoveAt(menus[m].items, k))];
    }
  }

  /** After a delete, the menu holds one copy fewer of the removed item and nothing else changes. */
  lemma DeleteTakesOneItem(menus: seq<Menu>, itemId: Id)
    requires Locate(menus, itemId).Some?
    ensures var (m, k) := Locate(menus, itemId).value;
            multiset(RemoveAt(menus[m].items, k)) + multiset{menus[m].items[k]} == multiset(menus[m].items)
  {
    var (m, k) := Locate(menus, itemId).value;
    RemoveAtMultiset(menus[m].items, k);
  }
}
