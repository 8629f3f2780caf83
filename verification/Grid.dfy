/** The product grid (apps/products/selectors.py, `_filtered` and `list_products`): a chain of joins rebinding one
    query, then DISTINCT, against the plain meaning of the filters. */
module Grid {
  import opened Basics
  import opened Ordering
  import opened Schema
  import opened Texts
  import opened Catalog
  import opened Coherence
  import opened Isolation

  const COLOUR := "Colour"
  const SIZE := "Size"

  datatype Filters = Filters(category: Option<string>, colours: seq<string>, sizes: seq<string>, priceMin: Option<int>,
                             priceMax: Option<int>, q: Option<string>)

  const NO_FILTERS := Filters(None, [], [], None, None, None)

  /** An absent or empty string filters nothing. */
  predicate Given(s: Option<string>) {
    s.Some? && s.value != ""
  }

  // ----- the plain meaning -----

  predicate Visible(t: Tables, store: Id, p: Id) {
    ProductOf(t, store, p) && t.products[p].visible
  }

  predicate InCategory(t: Tables, p: Id, slug: string) {
    p in t.products && t.products[p].category in t.categories && t.categories[t.products[p].category].slug == slug
  }

  predicate AxisOf(t: Tables, text: Text, p: Id, g: Id, axis: string) {
    g in t.groups && t.groups[g].product == p && SameText(text, t.groups[g].name, axis)
  }

  predicate ValueOn(t: Tables, g: Id, o: Id, values: seq<string>) {
    o in t.choices && t.choices[o].group == g && t.choices[o].value in values
  }

  /** Some axis of that name, in any letter case, holds one of the values. */
  predicate Offers(t: Tables, text: Text, p: Id, axis: string, values: seq<string>) {
    exists o :: o in t.choices && AxisOf(t, text, p, t.choices[o].group, axis) &&
      ValueOn(t, t.choices[o].group, o, values)
  }

  predicate PriceWithin(t: Tables, p: Id, lo: Option<int>, hi: Option<int>) {
    p in t.products && (lo.Some? ==> t.products[p].price >= lo.value) && (hi.Some? ==> t.products[p].price <= hi.value)
  }

  predicate Mentions(t: Tables, text: Text, p: Id, q: string) {
    p in t.products && (ContainsText(text, t.products[p].name, q) || ContainsText(text, t.products[p].description, q))
  }

  /** OR within an axis, AND across axes. */
  predicate Matches(t: Tables, text: Text, store: Id, f: Filters, p: Id) {
    && Visible(t, store, p)
    && (Given(f.category) ==> InCategory(t, p, f.category.value))
    && (f.colours != [] ==> Offers(t, text, p, COLOUR, f.colours))
    && (f.sizes != [] ==> Offers(t, text, p, SIZE, f.sizes))
    && PriceWithin(t, p, f.priceMin, f.priceMax)
    && (Given(f.q) ==> Mentions(t, text, p, f.q.value))
  }

  function Matching(t: Tables, text: Text, store: Id, f: Filters): set<Id> {
    set p | p in t.products && Matches(t, text, store, f, p)
  }

  // ----- the same, row by row -----

  predicate HoldsAt(hay: string, needle: string, i: int) {
    0 <= i <= |hay| - |needle| && hay[i..i + |needle|] == needle
  }

  /** The text holds the other one at some position. */
  ghost predicate Holds(hay: string, needle: string) {
    exists i :: HoldsAt(hay, needle, i)
  }

  /** An option of the product with one of the values, on an axis of that name in any letter case. */
  predicate Offering(t: Tables, text: Text, p: Id, axis: string, values: seq<string>, o: Id) {
    o in t.choices && t.choices[o].group in t.groups && t.groups[t.choices[o].group].product == p &&
    text.upper(t.groups[t.choices[o].group].name) == text.upper(axis) && t.choices[o].value in values
  }

  /** What a shopper may expect of every product shown, in terms of its rows. */
  ghost predicate Passes(t: Tables, text: Text, store: Id, f: Filters, p: Id) {
    && p in t.products && t.products[p].store == store && t.products[p].visible
    && (f.category.Some? && f.category.value != "" ==>
         t.products[p].category in t.categories && t.categories[t.products[p].category].slug == f.category.value)
    && (f.colours != [] ==> exists o: Id :: Offering(t, text, p, "Colour", f.colours, o))
    && (f.sizes != [] ==> exists o: Id :: Offering(t, text, p, "Size", f.sizes, o))
    && (f.priceMin.Some? ==> f.priceMin.value <= t.products[p].price)
    && (f.priceMax.Some? ==> t.products[p].price <= f.priceMax.value)
    && (f.q.Some? && f.q.value != "" ==>
         Holds(text.upper(t.products[p].name), text.upper(f.q.value)) ||
         Holds(text.upper(t.products[p].description), text.upper(f.q.value)))
  }

  lemma HoldsOneLater(hay: string, needle: string, i: int)
    requires hay != []
    ensures HoldsAt(hay[1..], needle, i) <==> i >= 0 && HoldsAt(hay, needle, i + 1)
  {
    if 0 <= i <= |hay| - 1 - |needle| {
      assert hay[1..][i..i + |needle|] == hay[i + 1..i + 1 + |needle|];
    }
  }

  lemma HoldsFirst(hay: string, needle: string)
    ensures HoldsAt(hay, needle, 0) <==> needle <= hay
  {
    if |needle| <= |hay| {
      assert hay[0..0 + |needle|] == hay[..|needle|];
    }
  }

  lemma {:induction false} OccursHolds(needle: string, hay: string)
    ensures Occurs(needle, hay) <==> Holds(hay, needle)
  {
    hide HoldsAt;
    HoldsFirst(hay, needle);
    if hay != [] {
      OccursHolds(needle, hay[1..]);
      if i :| HoldsAt(hay[1..], needle, i) {
        HoldsOneLater(hay, needle, i);
        assert HoldsAt(hay, needle, i + 1);
      }
      if i :| HoldsAt(hay, needle, i) && i != 0 {
        HoldsInside(hay, needle, i);
        HoldsOneLater(hay, needle, i - 1);
      }
    }
    if i :| HoldsAt(hay, needle, i) {
      HoldsInside(hay, needle, i);
    }
  }

  lemma HoldsInside(hay: string, needle: string, i: int)
    requires HoldsAt(hay, needle, i)
    ensures 0 <= i && (hay == [] ==> i == 0)
  {
  }

  lemma {:induction false} OffersSome(t: Tables, text: Text, p: Id, axis: string, values: seq<string>)
    ensures Offers(t, text, p, axis, values) <==> exists o: Id :: Offering(t, text, p, axis, values, o)
  {
    if o :| o in t.choices && AxisOf(t, text, p, t.choices[o].group, axis) &&
            ValueOn(t, t.choices[o].group, o, values) {
      assert Offering(t, text, p, axis, values, o);
    }
    if o: Id :| Offering(t, text, p, axis, values, o) {
      assert AxisOf(t, text, p, t.choices[o].group, axis) && ValueOn(t, t.choices[o].group, o, values);
    }
  }

  lemma {:induction false} MentionsHolds(t: Tables, text: Text, p: Id, q: string)
    requires p in t.products
    ensures Mentions(t, text, p, q) <==> Holds(text.upper(t.products[p].name), text.upper(q)) ||
                                         Holds(text.upper(t.products[p].description), text.upper(q))
  {
    hide Holds, Occurs;
    OccursHolds(text.upper(q), text.upper(t.products[p].name));
    OccursHolds(text.upper(q), text.upper(t.products[p].description));
  }

  lemma {:induction false} MatchesPasses(t: Tables, text: Text, store: Id, f: Filters, p: Id)
    ensures Matches(t, text, store, f, p) <==> Passes(t, text, store, f, p)
  {
    hide Offers, Mentions, Holds, Offering;
    OffersSome(t, text, p, COLOUR, f.colours);
    OffersSome(t, text, p, SIZE, f.sizes);
    if p in t.products && f.q.Some? {
      MentionsHolds(t, text, p, f.q.value);
    }
  }

  // ----- the query -----

  /** One row of the joined query: the product and the ids of the rows joined to it, join by join. */
  datatype Row = Row(product: Id, joined: seq<Id>)

  function ProductsOf(rows: set<Row>): set<Id> {
    set row | row in rows :: row.product
  }

  function AllVisible(t: Tables, store: Id): set<Row> {
    set p | p in t.products && t.products[p].store == store && t.products[p].visible :: Row(p, [])
  }

  function JoinCategory(t: Tables, rows: set<Row>, slug: string): set<Row> {
    set row | row in rows && row.product in t.products && t.products[row.product].category in t.categories &&
              t.categories[t.products[row.product].category].slug == slug
            :: Row(row.product, row.joined + [t.products[row.product].category])
  }

  /** One more pair of joins: an axis of the product by name, and an option of that same axis by value. */
  function JoinOptions(t: Tables, text: Text, rows: set<Row>, axis: string, values: seq<string>): set<Row> {
    set row, g, o | row in rows && g in t.groups && t.groups[g].product == row.product &&
                    SameText(text, t.groups[g].name, axis) &&
                    o in t.choices && t.choices[o].group == g && t.choices[o].value in values
                  :: Row(row.product, row.joined + [g, o])
  }

  function WherePrice(t: Tables, rows: set<Row>, lo: Option<int>, hi: Option<int>): set<Row> {
    set row | row in rows && PriceWithin(t, row.product, lo, hi)
  }

  function WhereMentions(t: Tables, text: Text, rows: set<Row>, q: string): set<Row> {
    set row | row in rows && Mentions(t, text, row.product, q)
  }

  lemma {:induction false} CategoryJoined(t: Tables, rows: set<Row>, slug: string)
    ensures ProductsOf(JoinCategory(t, rows, slug)) == set p | p in ProductsOf(rows) && InCategory(t, p, slug)
  {
    forall p | p in ProductsOf(rows) && InCategory(t, p, slug) ensures p in ProductsOf(JoinCategory(t, rows, slug)) {
      var row :| row in rows && row.product == p;
      assert Row(p, row.joined + [t.products[p].category]) in JoinCategory(t, rows, slug);
    }
  }

  /** However many axes and options match, the join keeps exactly the products that have one. */
  lemma {:induction false} OptionsJoined(t: Tables, text: Text, rows: set<Row>, axis: string, values: seq<string>)
    ensures ProductsOf(JoinOptions(t, text, rows, axis, values)) ==
            set p | p in ProductsOf(rows) && Offers(t, text, p, axis, values)
  {
    forall p | p in ProductsOf(rows) && Offers(t, text, p, axis, values)
      ensures p in ProductsOf(JoinOptions(t, text, rows, axis, values))
    {
      var row :| row in rows && row.product == p;
      var o :| o in t.choices && AxisOf(t, text, p, t.choices[o].group, axis) &&
        ValueOn(t, t.choices[o].group, o, values);
      assert Row(p, row.joined + [t.choices[o].group, o]) in JoinOptions(t, text, rows, axis, values);
    }
    forall p | p in ProductsOf(JoinOptions(t, text, rows, axis, values)) ensures Offers(t, text, p, axis, values) {
      var row, g, o :| row in rows && g in t.groups && t.groups[g].product == row.product &&
                       SameText(text, t.groups[g].name, axis) && o in t.choices && t.choices[o].group == g &&
                       t.choices[o].value in values && row.product == p;
      assert AxisOf(t, text, p, t.choices[o].group, axis) && ValueOn(t, t.choices[o].group, o, values);
    }
  }

  lemma {:induction false} Narrowed(t: Tables, text: Text, rows: set<Row>, lo: Option<int>, hi: Option<int>, q: string)
    ensures ProductsOf(WherePrice(t, rows, lo, hi)) == set p | p in ProductsOf(rows) && PriceWithin(t, p, lo, hi)
    ensures ProductsOf(WhereMentions(t, text, rows, q)) == set p | p in ProductsOf(rows) && Mentions(t, text, p, q)
  {
    hide PriceWithin, Mentions;
  }

  /** The query so far means what the filters so far mean. */
  ghost predicate Means(t: Tables, text: Text, store: Id, rows: set<Row>, f: Filters) {
    ProductsOf(rows) == Matching(t, text, store, f)
  }

  lemma {:induction false} StartMeans(t: Tables, text: Text, store: Id)
    ensures Means(t, text, store, AllVisible(t, store), NO_FILTERS)
  {
    forall p | p in Matching(t, text, store, NO_FILTERS) ensures p in ProductsOf(AllVisible(t, store)) {
      assert Row(p, []) in AllVisible(t, store);
    }
  }

  lemma {:induction false} CategoryMeans(t: Tables, text: Text, store: Id, rows: set<Row>, f: Filters,
                                         category: Option<string>)
    requires Means(t, text, store, rows, f) && f.category == None
    ensures Means(t, text, store, if Given(category) then JoinCategory(t, rows, category.value) else rows,
                  f.(category := category))
  {
    hide JoinCategory, InCategory, Offers, PriceWithin, Mentions, Visible;
    if Given(category) {
      CategoryJoined(t, rows, category.value);
    }
  }

  lemma {:induction false} ColoursMean(t: Tables, text: Text, store: Id, rows: set<Row>, f: Filters,
                                       colours: seq<string>)
    requires Means(t, text, store, rows, f) && f.colours == []
    ensures Means(t, text, store, if colours != [] then JoinOptions(t, text, rows, COLOUR, colours) else rows,
                  f.(colours := colours))
  {
    hide JoinOptions, InCategory, Offers, PriceWithin, Mentions, Visible;
    OptionsJoined(t, text, rows, COLOUR, colours);
  }

  lemma {:induction false} SizesMean(t: Tables, text: Text, store: Id, rows: set<Row>, f: Filters, sizes: seq<string>)
    requires Means(t, text, store, rows, f) && f.sizes == []
    ensures Means(t, text, store, if sizes != [] then JoinOptions(t, text, rows, SIZE, sizes) else rows,
                  f.(sizes := sizes))
  {
    hide JoinOptions, InCategory, Offers, PriceWithin, Mentions, Visible;
    OptionsJoined(t, text, rows, SIZE, sizes);
  }

  lemma {:induction false} PriceMeans(t: Tables, text: Text, store: Id, rows: set<Row>, f: Filters, lo: Option<int>,
                                      hi: Option<int>)
    requires Means(t, text, store, rows, f)
    ensures f.priceMin == None ==> Means(t, text, store, WherePrice(t, rows, lo, None), f.(priceMin := lo))
    ensures f.priceMax == None ==> Means(t, text, store, WherePrice(t, rows, None, hi), f.(priceMax := hi))
  {
    hide WherePrice, InCategory, Offers, Mentions, Visible;
    Narrowed(t, text, rows, lo, None, "");
    Narrowed(t, text, rows, None, hi, "");
  }

  lemma {:induction false} MentionsMean(t: Tables, text: Text, store: Id, rows: set<Row>, f: Filters, q: Option<string>)
    requires Means(t, text, store, rows, f) && f.q == None
    ensures Means(t, text, store, if Given(q) then WhereMentions(t, text, rows, q.value) else rows, f.(q := q))
  {
    hide WhereMentions, InCategory, Offers, PriceWithin, Mentions, Visible;
    if Given(q) {
      Narrowed(t, text, rows, None, None, q.value);
    }
  }

  /** Visible products narrowed by the filters. Each branch rebinds the query; DISTINCT keeps each product once. */
  method Filtered(t: Tables, text: Text, store: Id, f: Filters) returns (products: set<Id>)
    ensures products == Matching(t, text, store, f)
    ensures forall p: Id :: p in products <==> Passes(t, text, store, f, p)
  {
    hide AllVisible, JoinCategory, JoinOptions, WherePrice, WhereMentions, Matches, Matching, Passes;
    var rows := AllVisible(t, store);
    StartMeans(t, text, store);
    ghost var g := NO_FILTERS;
    CategoryMeans(t, text, store, rows, g, f.category);
    if Given(f.category) {
      rows := JoinCategory(t, rows, f.category.value);
    }
    g := g.(category := f.category);
    ColoursMean(t, text, store, rows, g, f.colours);
    if f.colours != [] {
      rows := JoinOptions(t, text, rows, COLOUR, f.colours);
    }
    g := g.(colours := f.colours);
    SizesMean(t, text, store, rows, g, f.sizes);
    if f.sizes != [] {
      rows := JoinOptions(t, text, rows, SIZE, f.sizes);
    }
    g := g.(sizes := f.sizes);
    PriceMeans(t, text, store, rows, g, f.priceMin, None);
    if f.priceMin.Some? {
      rows := WherePrice(t, rows, f.priceMin, None);
    }
    g := g.(priceMin := f.priceMin);
    PriceMeans(t, text, store, rows, g, None, f.priceMax);
    if f.priceMax.Some? {
      rows := WherePrice(t, rows, None, f.priceMax);
    }
    g := g.(priceMax := f.priceMax);
    MentionsMean(t, text, store, rows, g, f.q);
    if Given(f.q) {
      rows := WhereMentions(t, text, rows, f.q.value);
    }
    assert g.(q := f.q) == f;
    products := ProductsOf(rows);
    forall p: Id ensures p in products <==> Passes(t, text, store, f, p) {
      MatchesPasses(t, text, store, f, p);
      InMatching(t, text, store, f, p);
    }
  }

  lemma InMatching(t: Tables, text: Text, store: Id, f: Filters, p: Id)
    ensures p in Matching(t, text, store, f) <==> Matches(t, text, store, f, p)
  {
    hide Offers, Mentions, InCategory, PriceWithin;
  }

  // ----- the sorted grid -----

  /** The sort expressions; an unknown name sorts like "newest". */
  function SortRank(products: map<Id, Product>, sort: string): Rank {
    p => if p !in products then (0, 0, 0)
         else if sort == "price_asc" then (products[p].price, -products[p].createdAt, 0)
         else if sort == "price_desc" then (-products[p].price, -products[p].createdAt, 0)
         else if sort == "featured" then (if products[p].featured then 0 else 1, -products[p].createdAt, 0)
         else (-products[p].createdAt, 0, 0)
  }

  /** What a shopper sees of a sort: the leading column, newest first among equals. */
  predicate InOrder(sort: string, a: Product, b: Product) {
    if sort == "price_asc" then a.price < b.price || (a.price == b.price && a.createdAt >= b.createdAt)
    else if sort == "price_desc" then a.price > b.price || (a.price == b.price && a.createdAt >= b.createdAt)
    else if sort == "featured" then (a.featured && !b.featured) ||
      (a.featured == b.featured && a.createdAt >= b.createdAt)
    else a.createdAt >= b.createdAt
  }

  method ListProducts(t: Tables, text: Text, store: Id, sort: string, f: Filters) returns (list: seq<Id>)
    ensures ToSet(list) == Matching(t, text, store, f) && Distinct(list) && |list| == |Matching(t, text, store, f)|
    ensures list == Arranged(SortRank(t.products, sort), Matching(t, text, store, f))
    ensures forall i, j :: 0 <= i < j < |list| ==>
              list[i] in t.products && list[j] in t.products && InOrder(sort, t.products[list[i]], t.products[list[j]])
  {
    hide Matches;
    var found := Filtered(t, text, store, f);
    var rank := SortRank(t.products, sort);
    list := Arranged(rank, found);
    ArrangedExactly(rank, found);
    forall i, j | 0 <= i < j < |list|
      ensures list[i] in t.products && list[j] in t.products && InOrder(sort, t.products[list[i]], t.products[list[j]])
    {
      assert list[i] in ToSet(list) && list[j] in ToSet(list);
      assert Before(rank, list[i], list[j]);
    }
  }

  // ----- the grid is a function of one store's rows -----

  lemma {:induction false} OffersAtHome(t: Tables, text: Text, store: Id, p: Id, axis: string, values: seq<string>)
    requires CatalogOk(t) && ProductOf(t, store, p)
    ensures Offers(t, text, p, axis, values) <==> Offers(View(t, store), text, p, axis, values)
  {
    hide CategoriesOk, ProductsOk, ImagesOk, SameText, SameAxis, SameValue;
    var v := View(t, store);
    if Offers(t, text, p, axis, values) {
      var o :| o in t.choices && AxisOf(t, text, p, t.choices[o].group, axis) &&
        ValueOn(t, t.choices[o].group, o, values);
      assert o in v.choices && AxisOf(v, text, p, v.choices[o].group, axis) &&
               ValueOn(v, v.choices[o].group, o, values);
    }
  }

  lemma {:induction false} CategoryAtHome(t: Tables, store: Id, p: Id, slug: string)
    requires CatalogOk(t) && ProductOf(t, store, p)
    ensures InCategory(t, p, slug) <==> InCategory(View(t, store), p, slug)
  {
  }

  lemma {:induction false} MatchesAtHome(t: Tables, text: Text, store: Id, f: Filters, p: Id)
    requires CatalogOk(t)
    ensures Matches(t, text, store, f, p) <==> Matches(View(t, store), text, store, f, p)
  {
    hide CatalogOk, Offers, InCategory, ContainsText;
    if ProductOf(t, store, p) {
      OffersAtHome(t, text, store, p, COLOUR, f.colours);
      OffersAtHome(t, text, store, p, SIZE, f.sizes);
      if Given(f.category) {
        CategoryAtHome(t, store, p, f.category.value);
      }
    }
  }

  /** The grid reads only the store's own rows, though most of its joins do not mention the store. */
  lemma {:induction false} GridAtHome(t: Tables, text: Text, store: Id, f: Filters)
    requires CatalogOk(t)
    ensures Matching(t, text, store, f) == Matching(View(t, store), text, store, f)
  {
    hide CatalogOk, Matches;
    var v := View(t, store);
    forall p ensures p in Matching(t, text, store, f) <==> p in Matching(v, text, store, f) {
      MatchesAtHome(t, text, store, f, p);
      MatchesVisible(t, text, store, f, p);
    }
  }

  lemma {:induction false} MatchesVisible(t: Tables, text: Text, store: Id, f: Filters, p: Id)
    ensures Matches(t, text, store, f, p) ==> p in t.products && p in View(t, store).products
  {
    hide Offers, InCategory, PriceWithin, Mentions;
  }
}
