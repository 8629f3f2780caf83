/** Catalog queries read one store: on a coherent state each gives the same answer as on that store's rows alone, so a
    write at another store changes none of them. */
module QueryIsolation {
  import opened Basics
  import opened Ordering
  import opened Schema
  import opened Texts
  import opened Catalog
  import opened Writes
  import opened Coherence
  import opened Isolation
  import opened Grid
  import opened Facets
  import opened CategoryIndex
  import Customers
  import Favorites
  import Inbox

  lemma {:induction false} SortedGridAtHome(t: Tables, text: Text, store: Id, sort: string, f: Filters)
    requires CatalogOk(t)
    ensures Arranged(SortRank(t.products, sort), Matching(t, text, store, f)) ==
            Arranged(SortRank(View(t, store).products, sort), Matching(View(t, store), text, store, f))
  {
    hide CatalogOk, Matches;
    GridAtHome(t, text, store, f);
    MatchingVisible(t, text, store, f);
    var rows := Matching(t, text, store, f);
    assert RanksAgree(SortRank(t.products, sort), SortRank(View(t, store).products, sort), rows);
    ArrangedAgree(SortRank(t.products, sort), SortRank(View(t, store).products, sort), rows);
  }

  ghost predicate OfStore(t: Tables, store: Id, ids: set<Id>) {
    forall p :: p in ids ==> ProductOf(t, store, p)
  }

  lemma {:induction false} FacetRowsAtHome(t: Tables, text: Text, store: Id, axis: string, ids: set<Id>, o: Id)
    requires ChoicesOk(t.choices, t.groups)
    ensures FacetRow(t, text, store, axis, ids, o) <==> FacetRow(View(t, store), text, store, axis, ids, o)
  {
  }

  lemma {:induction false} SwatchAtHome(t: Tables, text: Text, store: Id, options: set<Id>)
    requires forall o :: o in options ==> o in t.choices && t.choices[o].store == store
    ensures forall o :: o in options ==> o in View(t, store).choices
    ensures Swatch(t.choices, text, options) == Swatch(View(t, store).choices, text, options)
  {
    if options != {} {
      assert RanksAgree(ByHex(t.choices, text), ByHex(View(t, store).choices, text), options);
      FirstsAgree(ByHex(t.choices, text), ByHex(View(t, store).choices, text), options);
    }
  }

  lemma {:induction false} ValueRowsAtHome(t: Tables, text: Text, store: Id, axis: string, ids: set<Id>)
    requires ChoicesOk(t.choices, t.groups)
    ensures FacetValues(t, text, store, axis, ids) == FacetValues(View(t, store), text, store, axis, ids)
    ensures forall v :: FacetProducts(t, text, store, axis, ids, v) ==
              FacetProducts(View(t, store), text, store, axis, ids, v)
    ensures forall v :: FacetOptions(t, text, store, axis, ids, v) ==
              FacetOptions(View(t, store), text, store, axis, ids, v)
  {
    hide SameText, SameValue;
    var h := View(t, store);
    forall o ensures FacetRow(t, text, store, axis, ids, o) <==> FacetRow(h, text, store, axis, ids, o) {
      FacetRowsAtHome(t, text, store, axis, ids, o);
    }
  }

  lemma {:induction false} HeadsAtHome(t: Tables, text: Text, store: Id, axis: string, ids: set<Id>)
    requires ChoicesOk(t.choices, t.groups)
    ensures Heads(t, text, store, axis, ids) == Heads(View(t, store), text, store, axis, ids)
    ensures forall o :: o in Heads(t, text, store, axis, ids) ==> o in t.choices && o in View(t, store).choices
    ensures Arranged(ByValue(t.choices, text), Heads(t, text, store, axis, ids)) ==
            Arranged(ByValue(View(t, store).choices, text), Heads(t, text, store, axis, ids))
  {
    hide ChoicesOk, FacetValues, FacetProducts, FacetRow;
    var h, heads := View(t, store), Heads(t, text, store, axis, ids);
    ValueRowsAtHome(t, text, store, axis, ids);
    forall o ensures o in heads <==> o in Heads(h, text, store, axis, ids) {
      FacetRowsAtHome(t, text, store, axis, ids, o);
      OptionInView(t, text, store, axis, ids, o);
    }
    forall o | o in heads ensures o in h.choices && h.choices[o] == t.choices[o] {
      OptionInView(t, text, store, axis, ids, o);
    }
    assert RanksAgree(ByValue(t.choices, text), ByValue(h.choices, text), heads);
    ArrangedAgree(ByValue(t.choices, text), ByValue(h.choices, text), heads);
  }

  lemma OptionInView(t: Tables, text: Text, store: Id, axis: string, ids: set<Id>, o: Id)
    ensures FacetRow(t, text, store, axis, ids, o) ==>
              o in t.choices && o in View(t, store).choices && View(t, store).choices[o] == t.choices[o]
    ensures o in View(t, store).choices ==> o in t.choices && View(t, store).choices[o] == t.choices[o]
  {
    hide SameText;
  }

  lemma {:induction false} FacetAtHome(t: Tables, text: Text, store: Id, axis: string, ids: set<Id>, swatches: bool,
                                       o: Id)
    requires ChoicesOk(t.choices, t.groups) && o in t.choices && o in View(t, store).choices
    ensures FacetAt(t, text, store, axis, ids, swatches, o) ==
            FacetAt(View(t, store), text, store, axis, ids, swatches, o)
  {
    hide ChoicesOk, FacetValues, FacetProducts, Swatch;
    ValueRowsAtHome(t, text, store, axis, ids);
    OptionInView(t, text, store, axis, ids, o);
    SwatchAtHome(t, text, store, FacetOptions(t, text, store, axis, ids, t.choices[o].value));
  }

  lemma {:induction false} ValueFacetsAtHome(t: Tables, text: Text, store: Id, axis: string, ids: set<Id>,
                                             swatches: bool)
    requires ChoicesOk(t.choices, t.groups)
    ensures ValueFacets(t, text, store, axis, ids, swatches) ==
            ValueFacets(View(t, store), text, store, axis, ids, swatches)
  {
    hide ChoicesOk, Heads, FacetAt, Arranged;
    var h, heads := View(t, store), Heads(t, text, store, axis, ids);
    HeadsAtHome(t, text, store, axis, ids);
    var list := Arranged(ByValue(t.choices, text), heads);
    ArrangedRows(ByValue(t.choices, text), heads);
    assert forall o :: o in list ==> o in ToSet(list);
    forall i | 0 <= i < |list|
      ensures list[i] in t.choices && list[i] in h.choices &&
              FacetAt(t, text, store, axis, ids, swatches, list[i]) ==
                FacetAt(h, text, store, axis, ids, swatches, list[i])
    {
      assert list[i] in list;
      FacetAtHome(t, text, store, axis, ids, swatches, list[i]);
    }
    assert FacetsAt(t, text, store, axis, ids, swatches, list) == FacetsAt(h, text, store, axis, ids, swatches, list);
  }

  lemma {:induction false} ShelvesAtHome(t: Tables, text: Text, store: Id, ids: set<Id>)
    requires ProductsOk(t.products, t.categories) && OfStore(t, store, ids)
    ensures forall c :: CategoryProducts(t, ids, c) == CategoryProducts(View(t, store), ids, c)
    ensures CategoriesWith(t, store, ids) == CategoriesWith(View(t, store), store, ids)
    ensures forall shelves :: shelves <= Shelves(t, store) ==>
              Arranged(ShelfRank(t.categories, text), shelves) ==
                Arranged(ShelfRank(View(t, store).categories, text), shelves)
  {
    hide SameProductSlug;
    var h := View(t, store);
    assert forall p :: p in ids ==> p in t.products && p in h.products && h.products[p] == t.products[p];
    assert forall c :: CategoryProducts(t, ids, c) == CategoryProducts(h, ids, c);
    forall shelves | shelves <= Shelves(t, store)
      ensures Arranged(ShelfRank(t.categories, text), shelves) == Arranged(ShelfRank(h.categories, text), shelves)
    {
      assert RanksAgree(ShelfRank(t.categories, text), ShelfRank(h.categories, text), shelves);
      ArrangedAgree(ShelfRank(t.categories, text), ShelfRank(h.categories, text), shelves);
    }
  }

  lemma {:induction false} CategoryFacetsAtHome(t: Tables, store: Id, ids: set<Id>, list: seq<Id>)
    requires OfStore(t, store, ids) && forall c :: c in list ==> c in Shelves(t, store)
    ensures forall c :: c in list ==> c in t.categories && c in View(t, store).categories
    ensures CategoryFacets(t, ids, list) == CategoryFacets(View(t, store), ids, list)
  {
    var h := View(t, store);
    forall c | c in list ensures CategoryFacetOf(t, ids, c) == CategoryFacetOf(h, ids, c) {
      assert CategoryProducts(t, ids, c) == CategoryProducts(h, ids, c);
    }
  }

  lemma {:induction false} SpanAtHome(products: map<Id, Product>, store: Id, list: seq<Id>)
    requires forall p :: p in list ==> p in products && products[p].store == store
    ensures forall p :: p in list ==> p in ProductsIn(products, store)
    ensures PriceSpan(products, list) == PriceSpan(ProductsIn(products, store), list)
  {
    if list != [] {
      assert list == list[..|list| - 1] + [list[|list| - 1]];
      SpanAtHome(products, store, list[..|list| - 1]);
    }
  }

  lemma {:induction false} PanelAtHome(t: Tables, text: Text, store: Id, ids: set<Id>)
    requires CatalogOk(t) && OfStore(t, store, ids)
    ensures ids <= t.products.Keys && ids <= View(t, store).products.Keys
    ensures PanelOver(t, text, store, ids) == PanelOver(View(t, store), text, store, ids)
  {
    hide CategoriesOk, ProductsOk, ImagesOk, GroupsOk, ChoicesOk, ValueFacets, CategoryFacets, PriceSpan, SortRank,
      ShelfRank;
    var h := View(t, store);
    ValueFacetsAtHome(t, text, store, COLOUR, ids, true);
    ValueFacetsAtHome(t, text, store, SIZE, ids, false);
    NewestAtHome(t, store, ids);
    var list := Arranged(SortRank(t.products, "newest"), ids);
    ArrangedRows(SortRank(t.products, "newest"), ids);
    assert forall p :: p in list ==> p in ToSet(list);
    SpanAtHome(t.products, store, list);
    ShelvesAtHome(t, text, store, ids);
    var shelves := CategoriesWith(t, store, ids);
    var order := Arranged(ShelfRank(t.categories, text), shelves);
    ArrangedRows(ShelfRank(t.categories, text), shelves);
    assert forall c :: c in order ==> c in ToSet(order);
    CategoryFacetsAtHome(t, store, ids, order);
  }

  lemma {:induction false} NewestAtHome(t: Tables, store: Id, ids: set<Id>)
    requires OfStore(t, store, ids)
    ensures Arranged(SortRank(t.products, "newest"), ids) == Arranged(SortRank(View(t, store).products, "newest"), ids)
  {
    assert RanksAgree(SortRank(t.products, "newest"), SortRank(View(t, store).products, "newest"), ids);
    ArrangedAgree(SortRank(t.products, "newest"), SortRank(View(t, store).products, "newest"), ids);
  }

  lemma {:induction false} CardAtHome(t: Tables, store: Id, card: Card)
    requires CatalogOk(t) && card.id in Shelves(t, store)
    ensures CardFor(t, store, card) <==> CardFor(View(t, store), store, card)
  {
    hide CategoriesOk, GroupsOk, ChoicesOk, SameProductSlug;
    var h := View(t, store);
    assert VisibleUnder(t.products, card.id) == VisibleUnder(h.products, card.id);
    var images := CoverCandidates(t, store, card.id);
    assert images == CoverCandidates(h, store, card.id);
    if images != {} {
      assert RanksAgree(CoverRank(t), CoverRank(h), images);
      FirstsAgree(CoverRank(t), CoverRank(h), images);
    }
  }

  /** Two coherent states with the same rows for a store answer every catalog query of that store alike. */
  lemma {:induction false} SameRowsSameAnswers(a: Tables, b: Tables, text: Text, store: Id, sort: string, f: Filters)
    requires CatalogOk(a) && CatalogOk(b) && View(a, store) == View(b, store)
    ensures Arranged(SortRank(a.products, sort), Matching(a, text, store, f)) ==
            Arranged(SortRank(b.products, sort), Matching(b, text, store, f))
    ensures Matching(a, text, store, f) == Matching(b, text, store, f)
    ensures Matching(a, text, store, f) <= a.products.Keys && Matching(b, text, store, f) <= b.products.Keys
    ensures PanelOver(a, text, store, Matching(a, text, store, f)) ==
              PanelOver(b, text, store, Matching(b, text, store, f))
  {
    hide CatalogOk, Matches, PanelOver, SortRank, View;
    GridAtHome(a, text, store, f);
    GridAtHome(b, text, store, f);
    SortedGridAtHome(a, text, store, sort, f);
    SortedGridAtHome(b, text, store, sort, f);
    MatchingVisible(a, text, store, f);
    MatchingVisible(b, text, store, f);
    PanelAtHome(a, text, store, Matching(a, text, store, f));
    PanelAtHome(b, text, store, Matching(b, text, store, f));
  }

  /** A write at one store leaves another store's grids, facet panels and category cards exactly as they were. */
  lemma {:induction false} OtherStoresSeeNothing(t: Tables, w: Write, text: Text, other: Id, sort: string, f: Filters)
    requires Coherent(t) && AtHome(t, w) && w.store != other
    ensures var after := Apply(t, w);
            && Arranged(SortRank(after.products, sort), Matching(after, text, other, f)) ==
               Arranged(SortRank(t.products, sort), Matching(t, text, other, f))
            && Matching(after, text, other, f) <= after.products.Keys && Matching(t, text, other, f) <= t.products.Keys
            && PanelOver(after, text, other, Matching(after, text, other, f)) ==
               PanelOver(t, text, other, Matching(t, text, other, f))
            && Shelves(after, other) == Shelves(t, other)
            && forall card: Card :: card.id in Shelves(t, other) ==>
              (CardFor(after, other, card) <==> CardFor(t, other, card))
  {
    hide RowsIssued, CatalogOk, ActivityOk, AtHome, Apply, Matches, PanelOver, SortRank, CardFor;
    var after := Apply(t, w);
    EveryWriteKeepsCoherence(t, w);
    WritesStayHome(t, w, other);
    SameRowsSameAnswers(after, t, text, other, sort, f);
    ShelvesInView(t, other);
    ShelvesInView(after, other);
    forall card: Card | card.id in Shelves(t, other) ensures CardFor(after, other, card) <==> CardFor(t, other, card) {
      CardAtHome(t, other, card);
      CardAtHome(after, other, card);
    }
  }

  /** Nor do its customers, their counts or its inbox change. */
  lemma {:induction false} OtherStoresActivityStays(t: Tables, w: Write, other: Id, users: set<Id>, since: Option<Time>,
                                                    sinceId: Option<Id>, status: Option<Status>)
    requires Coherent(t) && w.store != other
    ensures var after := Apply(t, w);
            && Customers.StoreCustomers(after, users, other) == Customers.StoreCustomers(t, users, other)
            && (forall u :: u in users ==>
                 |Customers.CountedOrders(after, users, other, u)| == |Customers.CountedOrders(t, users, other, u)| &&
                 |Customers.CountedFavorites(after, users, other, u)| ==
                   |Customers.CountedFavorites(t, users, other, u)|)
            && Inbox.InboxRows(after.orders, other, since, sinceId, status) ==
               Inbox.InboxRows(t.orders, other, since, sinceId, status)
  {
    hide Coherent, Apply, Customers.StoreCustomers, Customers.CountedOrders, Customers.CountedFavorites,
      Inbox.InboxRows;
    var after := Apply(t, w);
    WritesStayHome(t, w, other);
    Customers.CustomersAtHome(t, users, other);
    Customers.CustomersAtHome(after, users, other);
    Inbox.InboxAtHome(t.orders, other, since, sinceId, status);
    Inbox.InboxAtHome(after.orders, other, since, sinceId, status);
  }

  /** Nor do a customer's favorites list or order history there. */
  lemma {:induction false} OtherStoresListsStay(t: Tables, w: Write, other: Id, customer: Id)
    requires Coherent(t) && AtHome(t, w) && w.store != other
    ensures var after := Apply(t, w);
            && Favorites.FavoriteRows(after, other, customer) == Favorites.FavoriteRows(t, other, customer)
            && Inbox.CustomerOrders(after.orders, other, customer) == Inbox.CustomerOrders(t.orders, other, customer)
            && forall o :: o in Inbox.CustomerOrders(t.orders, other, customer) ==>
                 |Inbox.CountedLines(after.items, o)| == |Inbox.CountedLines(t.items, o)|
  {
    hide Coherent, Apply, AtHome, FavoritesOk, ItemsOk, Favorites.FavoriteRows, Inbox.CustomerOrders,
      Inbox.CountedLines;
    var after := Apply(t, w);
    EveryWriteKeepsCoherence(t, w);
    WritesStayHome(t, w, other);
    CoherentActivity(t);
    CoherentActivity(after);
    Favorites.FavoritesAtHome(t, other, customer);
    Favorites.FavoritesAtHome(after, other, customer);
    Inbox.HistoryAtHome(t, other, customer);
    Inbox.HistoryAtHome(after, other, customer);
  }

  lemma CoherentActivity(t: Tables)
    requires Coherent(t)
    ensures FavoritesOk(t.favorites, t.products) && ItemsOk(t.items, t.orders, t.products)
  {
  }

  lemma {:induction false} ShelvesInView(t: Tables, store: Id)
    ensures Shelves(t, store) == View(t, store).categories.Keys
  {
  }
}
