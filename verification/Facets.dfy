/** Facet counts (apps/products/selectors.py, `product_facets`) and why each agrees with the grid a shopper gets by
    choosing it. */
module Facets {
  import opened Basics
  import opened Ordering
  import opened Schema
  import opened Texts
  import opened Catalog
  import opened Coherence
  import opened Grid

  datatype ValueFacet = ValueFacet(value: string, count: nat, hex: Option<string>)
  datatype CategoryFacet = CategoryFacet(slug: string, name: string, count: nat)
  datatype FacetPanel = FacetPanel(count: nat, priceMin: Option<int>, priceMax: Option<int>,
                                   categories: seq<CategoryFacet>,
                                   colours: seq<ValueFacet>, sizes: seq<ValueFacet>)

  // ----- one axis: group the matching options by value, count distinct products -----

  /** Options of the store joined with their axis by name, on one of the given products. */
  predicate FacetRow(t: Tables, text: Text, store: Id, axis: string, ids: set<Id>, o: Id) {
    o in t.choices && t.choices[o].store == store && t.choices[o].group in t.groups &&
    SameText(text, t.groups[t.choices[o].group].name, axis) && t.groups[t.choices[o].group].product in ids
  }

  function FacetValues(t: Tables, text: Text, store: Id, axis: string, ids: set<Id>): set<string> {
    set o | o in t.choices && FacetRow(t, text, store, axis, ids, o) :: t.choices[o].value
  }

  /** COUNT(DISTINCT product) within one value. */
  function FacetProducts(t: Tables, text: Text, store: Id, axis: string, ids: set<Id>, value: string): set<Id> {
    set o | o in t.choices && FacetRow(t, text, store, axis, ids, o) && t.choices[o].value == value
          :: t.groups[t.choices[o].group].product
  }

  function FacetOptions(t: Tables, text: Text, store: Id, axis: string, ids: set<Id>, value: string): set<Id> {
    set o | o in t.choices && FacetRow(t, text, store, axis, ids, o) && t.choices[o].value == value
  }

  function ByHex(choices: map<Id, Choice>, text: Text): Rank {
    o => (if o in choices then -text.place(choices[o].hex) else 0, 0, 0)
  }

  /** `MAX(hex) or None` over some options. */
  function Swatch(choices: map<Id, Choice>, text: Text, options: set<Id>): Option<string>
    requires options <= choices.Keys
  {
    if options == {} then None else
      var hex := choices[First(ByHex(choices, text), options)].hex;
      if hex == "" then None else Some(hex)
  }

  /** In any collation that puts the empty string first, a blank hex never hides one that is set. */
  lemma {:induction false} BlankHexHidesNothing(choices: map<Id, Choice>, text: Text, options: set<Id>)
    requires options <= choices.Keys
    requires forall o :: o in options && choices[o].hex != "" ==> text.place("") < text.place(choices[o].hex)
    ensures Swatch(choices, text, options) == None <==> forall o :: o in options ==> choices[o].hex == ""
    ensures Swatch(choices, text, options).Some? ==>
              exists o :: o in options && choices[o].hex == Swatch(choices, text, options).value
    ensures Swatch(choices, text, options).Some? ==>
              forall o :: o in options ==>
                text.place(choices[o].hex) <= text.place(Swatch(choices, text, options).value)
  {
    if options != {} {
      var rank := ByHex(choices, text);
      var top := First(rank, options);
      assert forall o :: o in options && o != top ==> Before(rank, top, o);
    }
  }

  /** One option to stand for each value. */
  function Heads(t: Tables, text: Text, store: Id, axis: string, ids: set<Id>): set<Id> {
    set o | o in t.choices && FacetRow(t, text, store, axis, ids, o) &&
            IsLeast(o, FacetOptions(t, text, store, axis, ids, t.choices[o].value))
  }

  /** ORDER BY value. */
  function ByValue(choices: map<Id, Choice>, text: Text): Rank {
    o => (if o in choices then text.place(choices[o].value) else 0, 0, 0)
  }

  function SwatchOf(t: Tables, text: Text, store: Id, axis: string, ids: set<Id>, swatches: bool, value: string)
    : Option<string>
  {
    if swatches then Swatch(t.choices, text, FacetOptions(t, text, store, axis, ids, value)) else None
  }

  function FacetAt(t: Tables, text: Text, store: Id, axis: string, ids: set<Id>, swatches: bool, o: Id): ValueFacet
    requires o in t.choices
  {
    var v := t.choices[o].value;
    ValueFacet(v, |FacetProducts(t, text, store, axis, ids, v)|, SwatchOf(t, text, store, axis, ids, swatches, v))
  }

  function FacetsAt(t: Tables, text: Text, store: Id, axis: string, ids: set<Id>, swatches: bool, list: seq<Id>)
    : seq<ValueFacet>
    requires forall o :: o in list ==> o in t.choices
  {
    seq(|list|, i requires 0 <= i < |list| => FacetAt(t, text, store, axis, ids, swatches, list[i]))
  }

  function ValueFacets(t: Tables, text: Text, store: Id, axis: string, ids: set<Id>, swatches: bool): seq<ValueFacet> {
    var list := Arranged(ByValue(t.choices, text), Heads(t, text, store, axis, ids));
    ArrangedRows(ByValue(t.choices, text), Heads(t, text, store, axis, ids));
    assert forall o :: o in list ==> o in ToSet(list);
    FacetsAt(t, text, store, axis, ids, swatches, list)
  }

  predicate Lists(facets: seq<ValueFacet>, v: string) {
    exists i :: 0 <= i < |facets| && facets[i].value == v
  }

  /** Each value once, in the order the database sorts text. */
  predicate InValueOrder(text: Text, facets: seq<ValueFacet>) {
    forall i, j :: 0 <= i < j < |facets| ==>
      facets[i].value != facets[j].value && text.place(facets[i].value) <= text.place(facets[j].value)
  }

  lemma {:induction false} OneHead(t: Tables, text: Text, store: Id, axis: string, ids: set<Id>, o: Id, p: Id)
    requires o in Heads(t, text, store, axis, ids) && p in Heads(t, text, store, axis, ids)
    requires t.choices[o].value == t.choices[p].value
    ensures o == p
  {
    hide FacetRow;
  }

  lemma {:induction false} HeadExists(t: Tables, text: Text, store: Id, axis: string, ids: set<Id>, v: string)
    ensures v in FacetValues(t, text, store, axis, ids) <==>
              exists o :: o in Heads(t, text, store, axis, ids) && t.choices[o].value == v
  {
    hide FacetRow;
    if v in FacetValues(t, text, store, axis, ids) {
      var o :| o in t.choices && FacetRow(t, text, store, axis, ids, o) && t.choices[o].value == v;
      var options := FacetOptions(t, text, store, axis, ids, v);
      assert o in options;
      assert Least(options) in Heads(t, text, store, axis, ids);
    }
  }

  /** The listed values are exactly those with a matching option, in order, with their counts. */
  lemma {:induction false} ValuesListed(t: Tables, text: Text, store: Id, axis: string, ids: set<Id>, swatches: bool)
    ensures var facets := ValueFacets(t, text, store, axis, ids, swatches);
            && InValueOrder(text, facets)
            && (forall v :: Lists(facets, v) <==> v in FacetValues(t, text, store, axis, ids))
            && (forall i :: 0 <= i < |facets| ==>
                 facets[i].count == |FacetProducts(t, text, store, axis, ids, facets[i].value)|)
            && (forall i :: 0 <= i < |facets| ==>
                 facets[i].hex == SwatchOf(t, text, store, axis, ids, swatches, facets[i].value))
  {
    hide Heads, FacetValues, FacetProducts, FacetOptions, SwatchOf, Arranged;
    var rank, heads := ByValue(t.choices, text), Heads(t, text, store, axis, ids);
    var list := Arranged(rank, heads);
    ArrangedExactly(rank, heads);
    assert forall o :: o in list <==> o in ToSet(list);
    HeadsAreOptions(t, text, store, axis, ids);
    var facets := ValueFacets(t, text, store, axis, ids, swatches);
    assert |facets| == |list| && forall i :: 0 <= i < |list| ==> facets[i].value == t.choices[list[i]].value;
    forall i, j | 0 <= i < j < |facets|
      ensures facets[i].value != facets[j].value && text.place(facets[i].value) <= text.place(facets[j].value)
    {
      assert list[i] in list && list[j] in list && Before(rank, list[i], list[j]);
      if facets[i].value == facets[j].value {
        OneHead(t, text, store, axis, ids, list[i], list[j]);
      }
    }
    forall v ensures Lists(facets, v) <==> v in FacetValues(t, text, store, axis, ids) {
      HeadExists(t, text, store, axis, ids, v);
      if o :| o in heads && t.choices[o].value == v {
        var i :| 0 <= i < |list| && list[i] == o;
        assert facets[i].value == v;
      }
      if Lists(facets, v) {
        var i :| 0 <= i < |facets| && facets[i].value == v;
        assert list[i] in list;
      }
    }
  }

  lemma HeadsAreOptions(t: Tables, text: Text, store: Id, axis: string, ids: set<Id>)
    ensures Heads(t, text, store, axis, ids) <= t.choices.Keys
  {
  }

  predicate IsAxis(axis: string) {
    axis == COLOUR || axis == SIZE
  }

  function ChosenOn(f: Filters, axis: string): seq<string> {
    if axis == COLOUR then f.colours else f.sizes
  }

  /** The same filters with exactly these values chosen on one axis. */
  function Choosing(f: Filters, axis: string, values: seq<string>): Filters {
    if axis == COLOUR then f.(colours := values) else f.(sizes := values)
  }

  /** A facet row of a coherent store is a matching option of a matching product. */
  lemma {:induction false} FacetIsOffer(t: Tables, text: Text, store: Id, axis: string, ids: set<Id>, value: string)
    requires CatalogOk(t) && forall p :: p in ids ==> ProductOf(t, store, p)
    ensures FacetProducts(t, text, store, axis, ids, value) == set p | p in ids && Offers(t, text, p, axis, [value])
  {
    hide CategoriesOk, ProductsOk, ImagesOk, SameAxis, SameValue, SameText;
    forall p | p in ids && Offers(t, text, p, axis, [value])
      ensures p in FacetProducts(t, text, store, axis, ids, value)
    {
      var o :| o in t.choices && AxisOf(t, text, p, t.choices[o].group, axis) &&
        ValueOn(t, t.choices[o].group, o, [value]);
      assert FacetRow(t, text, store, axis, ids, o) && t.choices[o].value == value;
    }
    forall p | p in FacetProducts(t, text, store, axis, ids, value) ensures Offers(t, text, p, axis, [value]) {
      var o :| o in t.choices && FacetRow(t, text, store, axis, ids, o) && t.choices[o].value == value &&
               t.groups[t.choices[o].group].product == p;
      assert AxisOf(t, text, p, t.choices[o].group, axis) && ValueOn(t, t.choices[o].group, o, [value]);
    }
  }

  lemma {:induction false} ChoosingMatches(t: Tables, text: Text, store: Id, f: Filters, axis: string, value: string,
                                           p: Id)
    requires IsAxis(axis)
    ensures Matches(t, text, store, f, p) && Offers(t, text, p, axis, [value]) <==>
            Matches(t, text, store, f, p) && Matches(t, text, store, Choosing(f, axis, [value]), p)
    ensures ChosenOn(f, axis) == [] && Matches(t, text, store, Choosing(f, axis, [value]), p) ==>
              Matches(t, text, store, f, p)
  {
    hide Offers, InCategory, PriceWithin, Mentions, Visible;
  }

  /** The facet of a value counts the products of the current grid that the grid for that value also shows; with no
      value chosen on the axis yet, that is the whole length of the grid the shopper would get. */
  lemma {:induction false} ValueFacetIsGrid(t: Tables, text: Text, store: Id, f: Filters, axis: string, value: string)
    requires CatalogOk(t) && IsAxis(axis)
    ensures var now, chosen := Matching(t, text, store, f), Matching(t, text, store, Choosing(f, axis, [value]));
            && FacetProducts(t, text, store, axis, now, value) == now * chosen
            && (ChosenOn(f, axis) == [] ==> now * chosen == chosen)
  {
    hide CatalogOk, Offers, Matches, FacetProducts;
    var now, chosen := Matching(t, text, store, f), Matching(t, text, store, Choosing(f, axis, [value]));
    forall p | p in t.products ensures
      && (p in now && Offers(t, text, p, axis, [value]) <==> p in now && p in chosen)
      && (ChosenOn(f, axis) == [] && p in chosen ==> p in now)
    {
      ChoosingMatches(t, text, store, f, axis, value, p);
    }
    MatchingVisible(t, text, store, f);
    FacetIsOffer(t, text, store, axis, now, value);
  }

  lemma {:induction false} MatchingVisible(t: Tables, text: Text, store: Id, f: Filters)
    ensures forall p :: p in Matching(t, text, store, f) ==> ProductOf(t, store, p)
  {
    hide Offers, InCategory, PriceWithin, Mentions;
  }

  lemma {:induction false} FacetListed(t: Tables, text: Text, store: Id, axis: string, ids: set<Id>, value: string)
    ensures value in FacetValues(t, text, store, axis, ids) <==> FacetProducts(t, text, store, axis, ids, value) != {}
  {
    hide FacetRow;
    if value in FacetValues(t, text, store, axis, ids) {
      var o :| o in t.choices && FacetRow(t, text, store, axis, ids, o) && t.choices[o].value == value;
      FacetRowGroup(t, text, store, axis, ids, o);
      assert t.groups[t.choices[o].group].product in FacetProducts(t, text, store, axis, ids, value);
    }
  }

  lemma FacetRowGroup(t: Tables, text: Text, store: Id, axis: string, ids: set<Id>, o: Id)
    requires FacetRow(t, text, store, axis, ids, o)
    ensures o in t.choices && t.choices[o].group in t.groups
  {
  }

  // ----- categories -----

  /** COUNT(DISTINCT product) of a category's products among the given ones. */
  function CategoryProducts(t: Tables, ids: set<Id>, category: Id): set<Id> {
    set p | p in ids && p in t.products && t.products[p].category == category
  }

  function CategoriesWith(t: Tables, store: Id, ids: set<Id>): set<Id> {
    set c | c in t.categories && t.categories[c].store == store && |CategoryProducts(t, ids, c)| > 0
  }

  /** ORDER BY position, name. */
  function ShelfRank(categories: map<Id, Category>, text: Text): Rank {
    c => if c in categories then (categories[c].position, text.place(categories[c].name), 0) else (0, 0, 0)
  }

  /** Shelves by position, those at one position by name. */
  predicate InShelfOrder(categories: map<Id, Category>, text: Text, list: seq<Id>) {
    forall i, j :: 0 <= i < j < |list| ==>
      list[i] in categories && list[j] in categories &&
      (categories[list[i]].position < categories[list[j]].position ||
       (categories[list[i]].position == categories[list[j]].position &&
        text.place(categories[list[i]].name) <= text.place(categories[list[j]].name)))
  }

  lemma {:induction false} ShelvesInOrder(categories: map<Id, Category>, text: Text, rows: set<Id>)
    requires rows <= categories.Keys
    ensures InShelfOrder(categories, text, Arranged(ShelfRank(categories, text), rows))
  {
    hide Arranged;
    var rank := ShelfRank(categories, text);
    var list := Arranged(rank, rows);
    ArrangedExactly(rank, rows);
    forall i, j | 0 <= i < j < |list| ensures list[i] in rows && list[j] in rows && Before(rank, list[i], list[j]) {
      assert list[i] in ToSet(list) && list[j] in ToSet(list);
    }
  }

  function CategoryFacetOf(t: Tables, ids: set<Id>, c: Id): CategoryFacet
    requires c in t.categories
  {
    CategoryFacet(t.categories[c].slug, t.categories[c].name, |CategoryProducts(t, ids, c)|)
  }

  function CategoryFacets(t: Tables, ids: set<Id>, list: seq<Id>): (facets: seq<CategoryFacet>)
    requires forall c :: c in list ==> c in t.categories
    ensures |facets| == |list|
    ensures forall i :: 0 <= i < |list| ==> facets[i] == CategoryFacetOf(t, ids, list[i])
  {
    if list == [] then [] else [CategoryFacetOf(t, ids, list[0])] + CategoryFacets(t, ids, list[1..])
  }

  function Counts(facets: seq<CategoryFacet>): nat {
    if facets == [] then 0 else facets[0].count + Counts(facets[1..])
  }

  lemma {:induction false} InCategoryMatches(t: Tables, text: Text, store: Id, f: Filters, slug: string, p: Id)
    requires slug != ""
    ensures var g := f.(category := Some(slug));
            && (Matches(t, text, store, f, p) && InCategory(t, p, slug) <==>
                Matches(t, text, store, f, p) && Matches(t, text, store, g, p))
            && (!Given(f.category) || f.category == Some(slug) ==>
                (Matches(t, text, store, g, p) ==> Matches(t, text, store, f, p)))
  {
    hide Offers, InCategory, PriceWithin, Mentions, Visible;
  }

  lemma {:induction false} SlugNamesCategory(t: Tables, store: Id, c: Id, p: Id)
    requires CatalogOk(t) && CategoryOf(t, store, c) && ProductOf(t, store, p)
    ensures InCategory(t, p, t.categories[c].slug) <==> t.products[p].category == c
  {
    hide ImagesOk, GroupsOk, ChoicesOk;
    if InCategory(t, p, t.categories[c].slug) {
      assert SameCategorySlug(t.categories[t.products[p].category], t.categories[c]);
    }
  }

  /** A category's facet counts the products of the current grid that the grid for its slug also shows; unless another
      category is chosen already, that is that grid's length. It needs slugs to be unique in a store and not empty. */
  lemma {:induction false} CategoryFacetIsGrid(t: Tables, text: Text, store: Id, f: Filters, c: Id)
    requires CatalogOk(t) && CategoryOf(t, store, c)
    ensures var slug := t.categories[c].slug;
            var now, chosen := Matching(t, text, store, f), Matching(t, text, store, f.(category := Some(slug)));
            && CategoryProducts(t, now, c) == now * chosen
            && (!Given(f.category) || f.category == Some(slug) ==> now * chosen == chosen)
  {
    hide ProductsOk, ImagesOk, GroupsOk, ChoicesOk, Matches, InCategory;
    var slug := t.categories[c].slug;
    var now, chosen := Matching(t, text, store, f), Matching(t, text, store, f.(category := Some(slug)));
    MatchingVisible(t, text, store, f);
    forall p | p in t.products ensures
      && (p in now && t.products[p].category == c <==> p in now && p in chosen)
      && (!Given(f.category) || f.category == Some(slug) ==> (p in chosen ==> p in now))
    {
      InCategoryMatches(t, text, store, f, slug, p);
      if p in now {
        SlugNamesCategory(t, store, c, p);
      }
    }
  }

  function ProductsUnder(t: Tables, ids: set<Id>, categories: set<Id>): set<Id> {
    set p | p in ids && p in t.products && t.products[p].category in categories
  }

  lemma {:induction false} OneMoreCategory(t: Tables, ids: set<Id>, categories: set<Id>, c: Id)
    requires c in categories
    ensures |ProductsUnder(t, ids, categories)| ==
              |CategoryProducts(t, ids, c)| + |ProductsUnder(t, ids, categories - {c})|
  {
    var here, there := CategoryProducts(t, ids, c), ProductsUnder(t, ids, categories - {c});
    assert ProductsUnder(t, ids, categories) == here + there;
    assert here !! there;
  }

  lemma {:induction false} CountsByCategory(t: Tables, rank: Rank, ids: set<Id>, categories: set<Id>)
    requires categories <= t.categories.Keys
    ensures forall c :: c in Arranged(rank, categories) ==> c in t.categories
    ensures Counts(CategoryFacets(t, ids, Arranged(rank, categories))) == |ProductsUnder(t, ids, categories)|
    decreases |categories|
  {
    hide ProductsUnder, CategoryProducts;
    var list := Arranged(rank, categories);
    ArrangedRows(rank, categories);
    assert forall c :: c in list ==> c in ToSet(list);
    if categories == {} {
      NothingUnder(t, ids);
    } else {
      var first := First(rank, categories);
      CountsByCategory(t, rank, ids, categories - {first});
      OneMoreCategory(t, ids, categories, first);
      assert list[1..] == Arranged(rank, categories - {first});
    }
  }

  lemma NothingUnder(t: Tables, ids: set<Id>)
    ensures ProductsUnder(t, ids, {}) == {}
  {
  }

  /** The listed categories cover the grid: nothing the grid shows is missing from the rail, and no product counts
      twice. */
  lemma {:induction false} CategoriesCover(t: Tables, store: Id, ids: set<Id>)
    requires CatalogOk(t) && forall p :: p in ids ==> ProductOf(t, store, p)
    ensures ProductsUnder(t, ids, CategoriesWith(t, store, ids)) == ids
  {
    hide ImagesOk, GroupsOk, ChoicesOk, CategoriesOk;
    forall p | p in ids ensures t.products[p].category in CategoriesWith(t, store, ids) {
      assert p in CategoryProducts(t, ids, t.products[p].category);
    }
  }

  // ----- price bounds -----

  predicate IsLowest(products: map<Id, Product>, lo: int, ids: set<Id>) {
    (exists p :: p in ids && p in products && products[p].price == lo) &&
    forall p :: p in ids && p in products ==> lo <= products[p].price
  }

  predicate IsHighestPrice(products: map<Id, Product>, hi: int, ids: set<Id>) {
    (exists p :: p in ids && p in products && products[p].price == hi) &&
    forall p :: p in ids && p in products ==> products[p].price <= hi
  }

  /** MIN and MAX over the rows, found by scanning them. */
  function PriceSpan(products: map<Id, Product>, list: seq<Id>): (span: Option<(int, int)>)
    requires forall p :: p in list ==> p in products
    ensures span.None? <==> list == []
    ensures span.Some? ==>
              IsLowest(products, span.value.0, ToSet(list)) && IsHighestPrice(products, span.value.1, ToSet(list))
  {
    if list == [] then None else
      var front, price := list[..|list| - 1], products[list[|list| - 1]].price;
      assert list == front + [list[|list| - 1]];
      match PriceSpan(products, front)
      case None => Some((price, price))
      case Some((lo, hi)) => Some((if price < lo then price else lo, if price > hi then price else hi))
  }

  /** Narrowing the price filter to the reported span changes nothing. */
  lemma {:induction false} SpanIsTight(t: Tables, text: Text, store: Id, f: Filters, lo: int, hi: int)
    requires IsLowest(t.products, lo, Matching(t, text, store, f))
    requires IsHighestPrice(t.products, hi, Matching(t, text, store, f))
    ensures Matching(t, text, store, f.(priceMin := Some(lo), priceMax := Some(hi))) == Matching(t, text, store, f)
  {
    hide Offers, InCategory, Mentions, Visible;
    var g := f.(priceMin := Some(lo), priceMax := Some(hi));
    forall p ensures p in Matching(t, text, store, g) <==> p in Matching(t, text, store, f) {
    }
  }

  // ----- the panel -----

  /** Everything shown beside a grid of products. */
  function PanelOver(t: Tables, text: Text, store: Id, ids: set<Id>): FacetPanel
    requires ids <= t.products.Keys
  {
    var list := Arranged(SortRank(t.products, "newest"), ids);
    ArrangedRows(SortRank(t.products, "newest"), ids);
    assert forall p :: p in list ==> p in ToSet(list);
    var span := PriceSpan(t.products, list);
    var shelves := Arranged(ShelfRank(t.categories, text), CategoriesWith(t, store, ids));
    ArrangedRows(ShelfRank(t.categories, text), CategoriesWith(t, store, ids));
    assert forall c :: c in shelves ==> c in ToSet(shelves);
    FacetPanel(|list|, if span.Some? then Some(span.value.0) else None, if span.Some? then Some(span.value.1) else None,
               CategoryFacets(t, ids, shelves), ValueFacets(t, text, store, COLOUR, ids, true),
               ValueFacets(t, text, store, SIZE, ids, false))
  }

  /** Counts for the "show results" line and the filter rail, over the current filters. */
  method ProductFacets(t: Tables, text: Text, store: Id, f: Filters) returns (panel: FacetPanel)
    ensures Matching(t, text, store, f) <= t.products.Keys
    ensures panel == PanelOver(t, text, store, Matching(t, text, store, f))
  {
    hide Matches, PanelOver;
    var ids := Filtered(t, text, store, f);
    panel := PanelOver(t, text, store, ids);
  }

  /** One value of the panel against the grid it advertises. */
  predicate ValueAgrees(facets: seq<ValueFacet>, t: Tables, text: Text, store: Id, f: Filters, axis: string,
                        v: string) {
    var now, chosen := Matching(t, text, store, f), Matching(t, text, store, Choosing(f, axis, [v]));
    && (Lists(facets, v) <==> now * chosen != {})
    && (forall i :: 0 <= i < |facets| && facets[i].value == v ==> facets[i].count == |now * chosen|)
    && (ChosenOn(f, axis) == [] ==> now * chosen == chosen)
  }

  ghost predicate AxisAgrees(facets: seq<ValueFacet>, t: Tables, text: Text, store: Id, f: Filters, axis: string) {
    InValueOrder(text, facets) && forall v :: ValueAgrees(facets, t, text, store, f, axis, v)
  }

  lemma {:induction false} AxisFacetsAgree(t: Tables, text: Text, store: Id, f: Filters, axis: string, swatches: bool)
    requires CatalogOk(t) && IsAxis(axis)
    ensures AxisAgrees(ValueFacets(t, text, store, axis, Matching(t, text, store, f), swatches), t, text, store, f,
                       axis)
  {
    hide CatalogOk, Matching, FacetProducts, FacetValues, ValueFacets, FacetRow, Lists, InValueOrder;
    var now := Matching(t, text, store, f);
    var facets := ValueFacets(t, text, store, axis, now, swatches);
    ValuesListed(t, text, store, axis, now, swatches);
    forall v: string ensures ValueAgrees(facets, t, text, store, f, axis, v) {
      ValueFacetIsGrid(t, text, store, f, axis, v);
      FacetListed(t, text, store, axis, now, v);
    }
  }

  /** The collation puts the empty string before every other. */
  ghost predicate BlankFirst(text: Text) {
    forall s: string :: s != "" ==> text.place("") < text.place(s)
  }

  /** An option of a product of the grid that shows this colour. */
  predicate Shows(t: Tables, text: Text, grid: set<Id>, value: string, o: Id) {
    o in t.choices && t.choices[o].value == value && t.choices[o].group in t.groups &&
    t.groups[t.choices[o].group].product in grid &&
    text.upper(t.groups[t.choices[o].group].name) == text.upper("Colour")
  }

  /** A colour has no swatch exactly when every option of the grid that shows it has a blank one; else its swatch is
      that of one of them, and none has a greater one. */
  ghost predicate SwatchAgrees(facet: ValueFacet, t: Tables, text: Text, grid: set<Id>) {
    && (facet.hex.None? <==> forall o: Id :: Shows(t, text, grid, facet.value, o) ==> t.choices[o].hex == "")
    && (facet.hex.Some? ==>
         && (exists o: Id :: Shows(t, text, grid, facet.value, o) && t.choices[o].hex == facet.hex.value)
         && (forall o: Id :: Shows(t, text, grid, facet.value, o) ==>
               text.place(t.choices[o].hex) <= text.place(facet.hex.value)))
  }

  lemma {:induction false} OptionsShow(t: Tables, text: Text, store: Id, ids: set<Id>, value: string, o: Id)
    requires CatalogOk(t) && forall p :: p in ids ==> ProductOf(t, store, p)
    ensures o in FacetOptions(t, text, store, COLOUR, ids, value) <==> Shows(t, text, ids, value, o)
  {
    hide CategoriesOk, ProductsOk, ImagesOk, SameAxis, SameValue;
  }

  lemma {:induction false} SwatchesAgree(t: Tables, text: Text, store: Id, f: Filters)
    requires CatalogOk(t) && BlankFirst(text)
    ensures var grid := Matching(t, text, store, f);
            var facets := ValueFacets(t, text, store, COLOUR, grid, true);
            forall i :: 0 <= i < |facets| ==> SwatchAgrees(facets[i], t, text, grid)
  {
    hide CatalogOk, Matching, FacetProducts, FacetValues, ValueFacets, FacetOptions, Lists, InValueOrder, Swatch, Shows;
    var grid := Matching(t, text, store, f);
    var facets := ValueFacets(t, text, store, COLOUR, grid, true);
    ValuesListed(t, text, store, COLOUR, grid, true);
    MatchingVisible(t, text, store, f);
    forall i | 0 <= i < |facets| ensures SwatchAgrees(facets[i], t, text, grid) {
      var v := facets[i].value;
      var options := FacetOptions(t, text, store, COLOUR, grid, v);
      forall o: Id ensures o in options <==> Shows(t, text, grid, v, o) {
        OptionsShow(t, text, store, grid, v, o);
      }
      OptionsAreChoices(t, text, store, grid, v);
      BlankHexHidesNothing(t.choices, text, options);
    }
  }

  lemma OptionsAreChoices(t: Tables, text: Text, store: Id, ids: set<Id>, value: string)
    ensures FacetOptions(t, text, store, COLOUR, ids, value) <= t.choices.Keys
  {
  }

  lemma {:induction false} NoSwatches(t: Tables, text: Text, store: Id, ids: set<Id>)
    ensures var facets := ValueFacets(t, text, store, SIZE, ids, false);
            forall i :: 0 <= i < |facets| ==> facets[i].hex == None
  {
    hide FacetProducts, FacetValues, ValueFacets, FacetOptions, Lists, InValueOrder, Swatch;
    ValuesListed(t, text, store, SIZE, ids, false);
  }

  /** The panel agrees with the grid it stands beside and with every grid it leads to: the total is the grid's length;
      each colour and size count is that of the grid it leads to (with another choice on the axis active, of the part
      of it already shown); colours carry their swatches and sizes none; the price span is attained and tight; the
      category counts add up to the total. */
  lemma {:induction false} PanelAgrees(t: Tables, text: Text, store: Id, f: Filters)
    requires CatalogOk(t)
    ensures Matching(t, text, store, f) <= t.products.Keys
    ensures var grid := Matching(t, text, store, f);
            var panel := PanelOver(t, text, store, grid);
            && panel.count == |grid|
            && AxisAgrees(panel.colours, t, text, store, f, COLOUR)
            && AxisAgrees(panel.sizes, t, text, store, f, SIZE)
            && (BlankFirst(text) ==>
                 forall i :: 0 <= i < |panel.colours| ==> SwatchAgrees(panel.colours[i], t, text, grid))
            && (forall i :: 0 <= i < |panel.sizes| ==> panel.sizes[i].hex == None)
            && Counts(panel.categories) == panel.count
            && (panel.priceMin.Some? <==> grid != {}) && (panel.priceMax.Some? <==> grid != {})
            && (grid != {} ==> IsLowest(t.products, panel.priceMin.value, grid) &&
                               IsHighestPrice(t.products, panel.priceMax.value, grid))
  {
    hide CatalogOk, Matches, AxisAgrees, ValueFacets, IsLowest, IsHighestPrice, CategoryProducts, Choosing,
      SwatchAgrees, BlankFirst;
    var grid := Matching(t, text, store, f);
    if BlankFirst(text) {
      SwatchesAgree(t, text, store, f);
    }
    NoSwatches(t, text, store, grid);
    AxisFacetsAgree(t, text, store, f, COLOUR, true);
    AxisFacetsAgree(t, text, store, f, SIZE, false);
    MatchingVisible(t, text, store, f);
    CategoriesCover(t, store, grid);
    CountsByCategory(t, ShelfRank(t.categories, text), grid, CategoriesWith(t, store, grid));
    ArrangedRows(SortRank(t.products, "newest"), grid);
  }

  /** A listed category against the grid its slug opens from here. */
  predicate ShelfAgrees(facet: CategoryFacet, t: Tables, text: Text, store: Id, f: Filters, c: Id) {
    && CategoryOf(t, store, c)
    && facet.slug == t.categories[c].slug && facet.name == t.categories[c].name
    && facet.count == |Matching(t, text, store, f) * Matching(t, text, store, f.(category := Some(facet.slug)))|
    && facet.count > 0
  }

  predicate Reachable(t: Tables, text: Text, store: Id, f: Filters, c: Id) {
    CategoryOf(t, store, c) &&
    Matching(t, text, store, f) * Matching(t, text, store, f.(category := Some(t.categories[c].slug))) != {}
  }

  /** The rail lists exactly the categories that lead to a non-empty grid from here, each once, in shelf order, under
      its own slug and name, with the count of products the two grids share. */
  lemma {:induction false} CategoryPanelAgrees(t: Tables, text: Text, store: Id, f: Filters)
    requires CatalogOk(t)
    ensures Matching(t, text, store, f) <= t.products.Keys
    ensures var grid := Matching(t, text, store, f);
            var facets := PanelOver(t, text, store, grid).categories;
            var list := Arranged(ShelfRank(t.categories, text), CategoriesWith(t, store, grid));
            && |facets| == |list| && Distinct(list) && InShelfOrder(t.categories, text, list)
            && (forall c :: c in list <==> Reachable(t, text, store, f, c))
            && (forall i :: 0 <= i < |list| ==> ShelfAgrees(facets[i], t, text, store, f, list[i]))
  {
    hide CatalogOk, Matching, ValueFacets, CategoriesWith, CategoryFacetOf, Reachable, ShelfAgrees, PriceSpan, Distinct,
      InShelfOrder;
    ListedShelves(t, store, Matching(t, text, store, f));
    ShelvesInOrder(t.categories, text, CategoriesWith(t, store, Matching(t, text, store, f)));
    var grid := Matching(t, text, store, f);
    var rank := ShelfRank(t.categories, text);
    var list := Arranged(rank, CategoriesWith(t, store, grid));
    ArrangedExactly(rank, CategoriesWith(t, store, grid));
    assert forall c :: c in list <==> c in ToSet(list);
    MatchingVisible(t, text, store, f);
    forall c ensures c in list <==> Reachable(t, text, store, f, c)
             ensures c in list ==> c in t.categories && ShelfAgrees(CategoryFacetOf(t, grid, c), t, text, store, f, c) {
      ShelfListed(t, text, store, f, c);
    }
  }

  lemma ListedShelves(t: Tables, store: Id, ids: set<Id>)
    ensures CategoriesWith(t, store, ids) <= t.categories.Keys
  {
    hide CategoryProducts;
  }

  lemma {:induction false} ShelfListed(t: Tables, text: Text, store: Id, f: Filters, c: Id)
    requires CatalogOk(t)
    ensures var grid := Matching(t, text, store, f);
            && (c in CategoriesWith(t, store, grid) <==> Reachable(t, text, store, f, c))
            && (c in CategoriesWith(t, store, grid) ==>
                 c in t.categories && ShelfAgrees(CategoryFacetOf(t, grid, c), t, text, store, f, c))
  {
    hide CatalogOk, Matching, CategoryProducts;
    var grid := Matching(t, text, store, f);
    if CategoryOf(t, store, c) {
      CategoryFacetIsGrid(t, text, store, f, c);
      assert |CategoryProducts(t, grid, c)| > 0 <==> CategoryProducts(t, grid, c) != {};
    }
  }
}
