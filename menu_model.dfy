/** The Menu document and its item sub-documents (backend/models/Menu.js). */
module MenuModel {
  import opened Common

  const PlaceholderImage: string := "https://via.placeholder.com/150"

  datatype MenuItem = MenuItem(
    id: Id,
    name: string,
    description: string,
    price: int,
    image: string,
    isAvailable: bool)

  /** A menu: the vendor that owns it and its items in list order. */
  datatype Menu = Menu(id: Id, vendor: Id, items: seq<MenuItem>)

  /**
   * The fields of an item as a request body supplies them; also used as a
   * patch, where an absent field keeps the old value.
   */
  datatype ItemFields = ItemFields(
    name: Option<string>,
    description: Option<string>,
    price: Option<int>,
    image: Option<string>,
    isAvailable: Option<bool>)

  predicate FieldsValid(f: ItemFields)
  {
    f.name.Some? && Present(f.name.value) && f.price.Some?
  }

  /** Casting an item into the sub-document schema, applying its defaults. */
  function ValidateItem(id: Id, f: ItemFields): (r: Result<MenuItem>)
    ensures r.Ok? <==> FieldsValid(f)
    ensures r.Err? ==> r.code == 500
    ensures r.Ok? ==> && r.value.id == id
                      && Some(r.value.name) == f.name
                      && Some(r.value.price) == f.price
                      && r.value.description == (if f.description.Some? then f.description.value else "")
                      && r.value.image == (if f.image.Some? then f.image.value else PlaceholderImage)
                      && r.value.isAvailable == (if f.isAvailable.Some? then f.isAvailable.value else true)
  {
    if !FieldsValid(f) then Err(500, "Menu validation failed")
    else
      Ok(MenuItem(
        id, f.name.value,
        if f.description.Some? then f.description.value else "",
        f.price.value,
        if f.image.Some? then f.image.value else PlaceholderImage,
        if f.isAvailable.Some? then f.isAvailable.value else true))
  }

  /** The stored item's fields, all present, as a spread `{...item._doc}` yields them. */
  function FieldsOf(it: MenuItem): ItemFields
  {
    ItemFields(Some(it.name), Some(it.description), Some(it.price), Some(it.image), Some(it.isAvailable))
  }

  /** A stored item passes validation again unchanged. */
  lemma StoredItemRevalidates(it: MenuItem)
    requires Present(it.name)
    ensures ValidateItem(it.id, FieldsOf(it)) == Ok(it)
  {
  }
}
