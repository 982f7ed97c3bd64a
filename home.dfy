/**
 * The vendor browser of Home.js: enriching the fetched listing with the
 * page's table of images and ratings, the cuisine list, and the
 * search / cuisine / rating / sort pipeline with its reset.
 */
module Home {
  import opened Common
  import Text
  import Lists
  import Sorting
  import VendorRoutes
  import VendorModel

  /** A vendor as the public listing returns it. */
  type Card = VendorRoutes.PublicVendor

  /** One row of the page's table of extras, looked up by vendor name. */
  datatype Extra = Extra(image: string, avgRating: string)

  const Placeholder: string := "https://via.placeholder.com/250x140"

  /** `vendorExtras[v.name]?.image`, with "" for the undefined of a missing row. */
  function ExtraImage(extras: map<string, Extra>, name: string): string
  {
    if name in extras then extras[name].image else ""
  }

  function ExtraRating(extras: map<string, Extra>, name: string): string
  {
    if name in extras then extras[name].avgRating else ""
  }

  /**
   * The enrichment `{...v, image: extra || v.image || placeholder,
   * avgRating: extra || v.avgRating || "0"}`.
   */
  function Enrich(extras: map<string, Extra>, v: Card): (r: Card)
    ensures r == v.(image := r.image, avgRating := r.avgRating)
    ensures ExtraImage(extras, v.name) != "" ==> r.image == extras[v.name].image
    ensures ExtraImage(extras, v.name) == "" && v.image != "" ==> r.image == v.image
    ensures ExtraImage(extras, v.name) == "" && v.image == "" ==> r.image == Placeholder
    ensures ExtraRating(extras, v.name) != "" ==> r.avgRating == extras[v.name].avgRating
    ensures ExtraRating(extras, v.name) == "" && v.avgRating != "" ==> r.avgRating == v.avgRating
    ensures ExtraRating(extras, v.name) == "" && v.avgRating == "" ==> r.avgRating == "0"
  {
    v.(image := Or(Or(ExtraImage(extras, v.name), v.image), Placeholder),
       avgRating := Or(Or(ExtraRating(extras, v.name), v.avgRating), "0"))
  }

  /** Enriching an enriched vendor changes nothing. */
  lemma EnrichIdempotent(extras: map<string, Extra>, v: Card)
    ensures Enrich(extras, Enrich(extras, v)) == Enrich(extras, v)
  {
  }

  /**
   * The listing route always sends rating "0" and an empty image, so a vendor
   * missing from the table shows the placeholder and rating "0".
   */
  lemma UnlistedVendorDefaults(extras: map<string, Extra>, v: VendorModel.Vendor)
    requires v.name !in extras
    ensures Enrich(extras, VendorRoutes.PublicView(v)).image == Placeholder
    ensures Enrich(extras, VendorRoutes.PublicView(v)).avgRating == "0"
  {
  }

  /** The fetched listing, enriched vendor by vendor. */
  function EnrichAll(extras: map<string, Extra>, vs: seq<Card>): (r: seq<Card>)
    ensures |r| == |vs| && forall i :: 0 <= i < |vs| ==> r[i] == Enrich(extras, vs[i])
  {
    seq(|vs|, i requires 0 <= i < |vs| => Enrich(extras, vs[i]))
  }

  /** `vendorsData.map(v => v.cuisineType).filter(Boolean)`. */
  function TruthyCuisines(vs: seq<Card>): (r: seq<string>)
    ensures forall i :: 0 <= i < |r| ==> r[i] != "" && exists j :: 0 <= j < |vs| && vs[j].cuisineType == Some(r[i])
    ensures forall j :: 0 <= j < |vs| && Truthy(vs[j].cuisineType) ==> vs[j].cuisineType.value in r
    decreases |vs|
  {
    if vs == [] then []
    else
      var init := vs[..|vs| - 1];
      var rest := TruthyCuisines(init);
      assert forall j :: 0 <= j < |init| ==> init[j] == vs[j];
      if Truthy(vs[|vs| - 1].cuisineType) then rest + [vs[|vs| - 1].cuisineType.value] else rest
  }

  /** The cuisine choices, `[...new Set(...)]` of the truthy cuisine types. */
  function Cuisines(vs: seq<Card>): (r: seq<string>)
    ensures Lists.Distinct(r)
    ensures forall c :: c in r <==> c != "" && exists j :: 0 <= j < |vs| && vs[j].cuisineType == Some(c)
  {
    var all := TruthyCuisines(vs);
    var r := Lists.Dedup(all);
    assert forall c :: c in r <==> c in all by {
      forall c ensures c in r <==> c in all {
        if c in r {
          var i :| 0 <= i < |r| && r[i] == c;
        }
        if c in all {
          var i :| 0 <= i < |all| && all[i] == c;
        }
      }
    }
    r
  }

  /** The four controls of the page. */
  datatype Filters = Filters(search: string, cuisine: string, rating: string, sortBy: string)

  /** What "Clear" sets. */
  const ClearFilters: Filters := Filters("", "All", "All", "None")

  /** The search box: the lowercase name or cuisine type contains the lowercase query. */
  predicate MatchesSearch(query: string, v: Card)
  {
    query == ""
    || Text.Includes(Text.ToLower(v.name), Text.ToLower(query))
    || (v.cuisineType.Some? && Text.Includes(Text.ToLower(v.cuisineType.value), Text.ToLower(query)))
  }

  /** The cuisine select: an exact match unless it is "All". */
  predicate MatchesCuisine(cuisine: string, v: Card)
  {
    cuisine == "All" || v.cuisineType == Some(cuisine)
  }

  /**
   * The rating select, `Number(v.avgRating) >= Number(filterRating)` unless
   * it is "All"; a rating that is not a number (NaN) fails every comparison.
   */
  predicate MatchesRating(minimum: string, v: Card)
  {
    minimum == "All"
    || (Text.Tenths(v.avgRating).Some? && Text.Tenths(minimum).Some?
        && Text.Tenths(v.avgRating).value >= Text.Tenths(minimum).value)
  }

  /** The reference: a vendor is shown when it passes all three controls. */
  predicate Selected(f: Filters, v: Card)
  {
    MatchesSearch(f.search, v) && MatchesCuisine(f.cuisine, v) && MatchesRating(f.rating, v)
  }

  function Keep(f: Filters): Card -> bool
  {
    v => Selected(f, v)
  }

  /** The three `filter` steps of the effect, each skipped when its control is off. */
  function Filtered(vs: seq<Card>, f: Filters): (r: seq<Card>)
    ensures r == Lists.Filter(vs, Keep(f))
  {
    var bySearch := (v: Card) => MatchesSearch(f.search, v);
    var byCuisine := (v: Card) => MatchesCuisine(f.cuisine, v);
    var byRating := (v: Card) => MatchesRating(f.rating, v);
    var a := if f.search != "" then Lists.Filter(vs, bySearch) else (Lists.FilterKeepsAll(vs, bySearch); vs);
    var b := if f.cuisine != "All" then Lists.Filter(a, byCuisine) else (Lists.FilterKeepsAll(a, byCuisine); a);
    var c := if f.rating != "All" then Lists.Filter(b, byRating) else (Lists.FilterKeepsAll(b, byRating); b);
    var both := (v: Card) => MatchesSearch(f.search, v) && MatchesCuisine(f.cuisine, v);
    Lists.FilterCompose(vs, bySearch, byCuisine, both);
    Lists.FilterCompose(vs, both, byRating, Keep(f));
    c
  }

  /** `Number(b.avgRating) - Number(a.avgRating)` as an order: higher rating first. */
  function RatingKey(v: Card): nat
  {
    var t := Text.Tenths(v.avgRating);
    if t.Some? then t.value else 0
  }

  predicate RatingFirst(a: Card, b: Card)
  {
    RatingKey(a) >= RatingKey(b)
  }

  /** `a.name.localeCompare(b.name)` as an order. */
  predicate NameFirst(a: Card, b: Card)
  {
    Text.LexLe(a.name, b.name)
  }

  lemma RatingFirstPreorder()
    ensures Sorting.Preorder(RatingFirst)
  {
  }

  lemma NameFirstPreorder()
    ensures Sorting.Preorder(NameFirst)
  {
    forall a: Card, b: Card ensures NameFirst(a, b) || NameFirst(b, a) {
      Text.LexLeTotal(a.name, b.name);
    }
    forall a: Card, b: Card, c: Card | NameFirst(a, b) && NameFirst(b, c) ensures NameFirst(a, c) {
      Text.LexLeTransitive(a.name, b.name, c.name);
    }
  }

  /**
   * The sort step: by rating for "rating", by name for "name", none
   * otherwise. Vendors with the same rating, or the same name, keep their
   * fetched order.
   */
  function SortFor(c: seq<Card>, sortBy: string): (r: seq<Card>)
    ensures multiset(r) == multiset(c)
    ensures sortBy == "rating" ==> Sorting.Sorted(r, RatingFirst)
    ensures sortBy == "name" ==> Sorting.Sorted(r, NameFirst)
    ensures sortBy != "rating" && sortBy != "name" ==> r == c
    ensures sortBy == "rating" ==>
              forall d :: Lists.Filter(r, Sorting.Level(RatingFirst, d)) == Lists.Filter(c, Sorting.Level(RatingFirst, d))
    ensures sortBy == "name" ==>
              forall d :: Lists.Filter(r, Sorting.Level(NameFirst, d)) == Lists.Filter(c, Sorting.Level(NameFirst, d))
  {
    if sortBy == "rating" then
      RatingFirstPreorder();
      Sorting.Sort(c, RatingFirst)
    else if sortBy == "name" then
      NameFirstPreorder();
      Sorting.Sort(c, NameFirst)
    else c
  }

  /**
   * The effect's result: the vendors that pass the three controls, in
   * their fetched order unless sorted by rating or by name.
   */
  function Pipeline(vs: seq<Card>, f: Filters): (r: seq<Card>)
    ensures multiset(r) == multiset(Lists.Filter(vs, Keep(f)))
    ensures forall i :: 0 <= i < |r| ==> r[i] in vs && Selected(f, r[i])
    ensures forall j :: 0 <= j < |vs| && Selected(f, vs[j]) ==> vs[j] in r
    ensures f.sortBy == "rating" ==> Sorting.Sorted(r, RatingFirst)
    ensures f.sortBy == "name" ==> Sorting.Sorted(r, NameFirst)
    ensures f.sortBy != "rating" && f.sortBy != "name" ==> r == Lists.Filter(vs, Keep(f))
    ensures f.sortBy == "rating" ==>
              forall d :: Lists.Filter(r, Sorting.Level(RatingFirst, d))
                          == Lists.Filter(Lists.Filter(vs, Keep(f)), Sorting.Level(RatingFirst, d))
    ensures f.sortBy == "name" ==>
              forall d :: Lists.Filter(r, Sorting.Level(NameFirst, d))
                          == Lists.Filter(Lists.Filter(vs, Keep(f)), Sorting.Level(NameFirst, d))
  {
    var c := Filtered(vs, f);
    var r := SortFor(c, f.sortBy);
    Lists.PermutedFilterMembers(vs, Keep(f), r);
    r
  }

  /**
   * `handleClearFilters`: the reset controls and the list it shows
   * directly, which is what the pipeline gives for those controls.
   */
  function ClearAll(vs: seq<Card>): (result: (Filters, seq<Card>))
    ensures result.0 == ClearFilters
    ensures result.1 == vs && result.1 == Pipeline(vs, result.0)
  {
    Lists.FilterKeepsAll(vs, Keep(ClearFilters));
    (ClearFilters, vs)
  }

  /** Searching for a vendor's own name, in any letter case, keeps that vendor. */
  lemma SearchFindsOwnName(v: Card, query: string)
    requires Text.ToLower(query) == Text.ToLower(v.name)
    ensures MatchesSearch(query, v)
  {
    Text.IncludesSelf(Text.ToLower(v.name));
  }
}
